/** The streaming voice-activity endpoint detector of app/asr_vad.py: five phases, four
    buffers, hysteresis between two thresholds, and an endpoint hand-shake.

    The speech-probability backend is a parameter: the probability of a frame is any
    function of the frames heard since the backend was last reset, that frame included. */
module Vad {
  import opened Pcm

  datatype Phase =
    | WaitingForSpeech
    | SpeechCandidate
    | InSpeech
    | TrailingSilence
    | Finalizing

  datatype Settings = Settings(
    frame: nat,
    onset: real,
    offset: real,
    minSpeech: nat,
    minSilence: nat,
    hangover: nat,
    preRoll: nat,
    probability: seq<Audio> -> real)

  /** Durations are rounded up to at least one sample, and a frame holds at least one. */
  type Config = c: Settings | 0 < c.frame && 0 < c.minSpeech && 0 < c.minSilence && 0 < c.hangover && 0 < c.preRoll
    witness Settings(1, 0.0, 0.0, 1, 1, 1, 1, heard => 0.0)

  datatype State = State(
    phase: Phase,
    input: Audio,
    preRoll: Audio,
    candidate: Audio,
    candidateSpeech: nat,
    trailing: Audio,
    heard: seq<Audio>)

  type Transition = (Phase, Phase)

  datatype Decision = Decision(
    audio: Audio,
    endpoint: bool,
    discarded: nat,
    transitions: seq<Transition>)

  const INITIAL := State(WaitingForSpeech, [], [], [], 0, [], [])

  const NOTHING := Decision([], false, 0, [])

  /** Two decisions in a row, read as one. */
  function Then(first: Decision, second: Decision): Decision {
    Decision(first.audio + second.audio,
             first.endpoint || second.endpoint,
             first.discarded + second.discarded,
             first.transitions + second.transitions)
  }

  /** The pre-roll after appending audio, and how many of its oldest samples were dropped. */
  function AppendPreRoll(c: Config, preRoll: Audio, audio: Audio): (Audio, nat) {
    var all := preRoll + audio;
    var excess := Max(0, |all| - c.preRoll);
    (all[excess..], excess)
  }

  /** The tail shared by the two silent branches: close the utterance once the trailing
      silence is long enough, keeping the hangover and turning the rest into pre-roll. */
  function CloseIfSilent(c: Config, s: State, transitions: seq<Transition>): (State, Decision) {
    if |s.trailing| < c.minSilence then
      (s, Decision([], false, 0, transitions))
    else
      var keep := Min(|s.trailing|, c.hangover);
      var (preRoll, gone) := AppendPreRoll(c, [], s.trailing[keep..]);
      (s.(phase := Finalizing, preRoll := preRoll, trailing := []),
       Decision(s.trailing[..keep], true, gone, transitions + [(TrailingSilence, Finalizing)]))
  }

  function ProcessFrame(c: Config, s: State, frame: Audio, p: real): (State, Decision)
    requires s.phase != Finalizing
  {
    match s.phase
    case WaitingForSpeech =>
      if p >= c.onset then
        var candidate := s.preRoll + frame;
        if c.frame >= c.minSpeech then
          (s.(phase := InSpeech, preRoll := [], candidate := [], candidateSpeech := 0),
           Decision(candidate, false, 0,
                    [(WaitingForSpeech, SpeechCandidate), (SpeechCandidate, InSpeech)]))
        else
          (s.(phase := SpeechCandidate, preRoll := [], candidate := candidate, candidateSpeech := c.frame),
           Decision([], false, 0, [(WaitingForSpeech, SpeechCandidate)]))
      else
        var (preRoll, gone) := AppendPreRoll(c, s.preRoll, frame);
        (s.(preRoll := preRoll), Decision([], false, gone, []))
    case SpeechCandidate =>
      if p >= c.offset then
        if s.candidateSpeech + c.frame >= c.minSpeech then
          (s.(phase := InSpeech, candidate := [], candidateSpeech := 0),
           Decision(s.candidate + frame, false, 0, [(SpeechCandidate, InSpeech)]))
        else
          (s.(candidate := s.candidate + frame, candidateSpeech := s.candidateSpeech + c.frame), NOTHING)
      else
        var (preRoll, gone) := AppendPreRoll(c, s.preRoll, s.candidate + frame);
        (s.(phase := WaitingForSpeech, preRoll := preRoll, candidate := [], candidateSpeech := 0),
         Decision([], false, gone, [(SpeechCandidate, WaitingForSpeech)]))
    case InSpeech =>
      if p >= c.offset then
        (s, Decision(frame, false, 0, []))
      else
        CloseIfSilent(c, s.(phase := TrailingSilence, trailing := frame), [(InSpeech, TrailingSilence)])
    case TrailingSilence =>
      if p >= c.offset then
        (s.(phase := InSpeech, trailing := []),
         Decision(s.trailing + frame, false, 0, [(TrailingSilence, InSpeech)]))
      else
        CloseIfSilent(c, s.(trailing := s.trailing + frame), [])
  }

  predicate CanStep(c: Config, s: State) {
    s.phase != Finalizing && |s.input| >= c.frame
  }

  /** One turn of the drain loop: take a frame off the input, score it, process it. */
  function Step(c: Config, s: State): (State, Decision)
    requires CanStep(c, s)
  {
    var frame := s.input[..c.frame];
    var heard := s.heard + [frame];
    ProcessFrame(c, s.(input := s.input[c.frame..], heard := heard), frame, c.probability(heard))
  }

  lemma StepKeepsInput(c: Config, s: State)
    requires CanStep(c, s)
    ensures Step(c, s).0.input == s.input[c.frame..]
    ensures Step(c, s).1.endpoint <==> Step(c, s).0.phase == Finalizing
  {
  }

  function Drain(c: Config, s: State): (State, Decision)
    decreases |s.input|
  {
    if CanStep(c, s) then
      StepKeepsInput(c, s);
      var (next, first) := Step(c, s);
      var (last, rest) := Drain(c, next);
      (last, Then(first, rest))
    else
      (s, NOTHING)
  }

  function Extend(s: State, audio: Audio): State {
    s.(input := s.input + audio)
  }

  function AddAudio(c: Config, s: State, audio: Audio): (State, Decision) {
    Drain(c, Extend(s, audio))
  }

  /** Leave Finalizing: the backend forgets what it heard. */
  function Rearm(s: State): State {
    s.(phase := WaitingForSpeech, heard := [])
  }

  function EndpointFinalized(c: Config, s: State): (State, Decision) {
    if s.phase != Finalizing then
      (s, NOTHING)
    else
      var (last, rest) := Drain(c, Rearm(s));
      (last, Then(Decision([], false, 0, [(Finalizing, WaitingForSpeech)]), rest))
  }

  function Emptied(s: State): State {
    s.(input := [], preRoll := [], candidate := [], candidateSpeech := 0, trailing := [])
  }

  function FinishInput(c: Config, s: State): (State, Decision) {
    var (last, d) := Drain(c, s);
    Flush(c, last, d)
  }

  /** What finishing does with the buffers the drain loop left behind. */
  function Flush(c: Config, last: State, d: Decision): (State, Decision) {
    match last.phase
    case InSpeech =>
      (Emptied(last), Decision(d.audio + last.input, false, d.discarded + |last.preRoll|, d.transitions))
    case TrailingSilence =>
      var keep := Min(|last.trailing|, Max(0, c.hangover - |d.audio|));
      (Emptied(last),
       Decision(d.audio + last.trailing[..keep], false,
                d.discarded + (|last.trailing| - keep) + |last.input| + |last.preRoll|, d.transitions))
    case SpeechCandidate =>
      (Emptied(last).(phase := WaitingForSpeech),
       Decision(d.audio, false, d.discarded + |last.input| + |last.candidate| + |last.preRoll|,
                d.transitions + [(SpeechCandidate, WaitingForSpeech)]))
    case _ =>
      (Emptied(last), Decision(d.audio, false, d.discarded + |last.input| + |last.preRoll|, d.transitions))
  }

  // ---------------------------------------------------------------------------------------

  /** The detector as the object the gateway holds. */
  class EndpointDetector {
    const config: Config
    var phase: Phase
    var inputBuffer: Audio
    var preRoll: Audio
    var candidate: Audio
    var candidateSpeech: nat
    var trailing: Audio
    var heard: seq<Audio>

    ghost function View(): State
      reads this
    {
      State(phase, inputBuffer, preRoll, candidate, candidateSpeech, trailing, heard)
    }

    constructor (config: Config)
      ensures this.config == config && View() == INITIAL
    {
      this.config := config;
      phase := WaitingForSpeech;
      inputBuffer, preRoll, candidate, trailing, heard := [], [], [], [], [];
      candidateSpeech := 0;
    }

    /** Rejects bytes that are not whole samples and changes nothing then. */
    method AddBytes(bytes: seq<Byte>) returns (r: Result<Decision, string>)
      modifies this
      ensures r.Ok? <==> Aligned(bytes)
      ensures r.Err? ==> View() == old(View())
      ensures r.Ok? ==> View() == AddAudio(config, old(View()), Decode(bytes)).0
      ensures r.Ok? ==> r.value == AddAudio(config, old(View()), Decode(bytes)).1
    {
      if !Aligned(bytes) {
        return Err("VAD audio must be aligned pcm_s16le");
      }
      inputBuffer := inputBuffer + Decode(bytes);
      ghost var s := View();
      assert s == Extend(old(View()), Decode(bytes));
      var d := DrainCompleteFrames([]);
      ThenIdentity(Drain(config, s).1);
      return Ok(d);
    }

    method Finalized() returns (d: Decision)
      modifies this
      ensures View() == EndpointFinalized(config, old(View())).0
      ensures d == EndpointFinalized(config, old(View())).1
    {
      if phase != Finalizing {
        return NOTHING;
      }
      phase := WaitingForSpeech;
      heard := [];
      assert View() == Rearm(old(View()));
      d := DrainCompleteFrames([(Finalizing, WaitingForSpeech)]);
    }

    /** Drops everything held without reporting it. */
    method Reset()
      modifies this
      ensures View() == INITIAL
    {
      phase := WaitingForSpeech;
      inputBuffer, preRoll, candidate, trailing, heard := [], [], [], [], [];
      candidateSpeech := 0;
    }

    method Finish() returns (d: Decision)
      modifies this
      ensures View() == FinishInput(config, old(View())).0
      ensures d == FinishInput(config, old(View())).1
    {
      d := DrainCompleteFrames([]);
      ThenIdentity(Drain(config, old(View())).1);
      d := FlushBuffers(d);
    }

    method FlushBuffers(drained: Decision) returns (d: Decision)
      modifies this
      ensures View() == Flush(config, old(View()), drained).0
      ensures d == Flush(config, old(View()), drained).1
    {
      var audio, discarded, transitions := drained.audio, drained.discarded, drained.transitions;
      if phase == InSpeech {
        audio := audio + inputBuffer;
      } else if phase == TrailingSilence {
        var keep := Min(|trailing|, Max(0, config.hangover - |audio|));
        audio := audio + trailing[..keep];
        discarded := discarded + (|trailing| - keep) + |inputBuffer|;
      } else {
        discarded := discarded + |inputBuffer|;
        if phase == SpeechCandidate {
          discarded := discarded + |candidate|;
          transitions := transitions + [(SpeechCandidate, WaitingForSpeech)];
          phase := WaitingForSpeech;
        }
      }
      discarded := discarded + |preRoll|;
      inputBuffer, preRoll, candidate, candidateSpeech, trailing := [], [], [], 0, [];
      d := Decision(audio, false, discarded, transitions);
    }

    method DrainCompleteFrames(initial: seq<Transition>) returns (d: Decision)
      modifies this
      ensures View() == Drain(config, old(View())).0
      ensures d == Then(Decision([], false, 0, initial), Drain(config, old(View())).1)
    {
      d := Decision([], false, 0, initial);
      ghost var goal := Drain(config, View());
      while phase != Finalizing && |inputBuffer| >= config.frame
        invariant goal.0 == Drain(config, View()).0
        invariant Then(Decision([], false, 0, initial), goal.1) == Then(d, Drain(config, View()).1)
        decreases |inputBuffer|
      {
        ghost var before := View();
        var frame := inputBuffer[..config.frame];
        inputBuffer := inputBuffer[config.frame..];
        heard := heard + [frame];
        var f := Process(frame, config.probability(heard));
        StepKeepsInput(config, before);
        ThenAssociates(d, f, Drain(config, View()).1);
        d := Then(d, f);
      }
      ThenIdentity(d);
    }

    method Process(frame: Audio, p: real) returns (d: Decision)
      requires phase != Finalizing
      modifies this
      ensures View() == ProcessFrame(config, old(View()), frame, p).0
      ensures d == ProcessFrame(config, old(View()), frame, p).1
    {
      var transitions: seq<Transition> := [];
      if phase == WaitingForSpeech {
        if p >= config.onset {
          candidate := preRoll + frame;
          preRoll := [];
          candidateSpeech := config.frame;
          phase := SpeechCandidate;
          transitions := [(WaitingForSpeech, SpeechCandidate)];
          if candidateSpeech >= config.minSpeech {
            phase := InSpeech;
            transitions := transitions + [(SpeechCandidate, InSpeech)];
            var audio := candidate;
            candidate, candidateSpeech := [], 0;
            return Decision(audio, false, 0, transitions);
          }
          return Decision([], false, 0, transitions);
        }
        var gone := KeepPreRoll(frame);
        return Decision([], false, gone, []);
      }
      if phase == SpeechCandidate {
        if p >= config.offset {
          candidate := candidate + frame;
          candidateSpeech := candidateSpeech + config.frame;
          if candidateSpeech >= config.minSpeech {
            phase := InSpeech;
            var audio := candidate;
            candidate, candidateSpeech := [], 0;
            return Decision(audio, false, 0, [(SpeechCandidate, InSpeech)]);
          }
          return NOTHING;
        }
        var gone := KeepPreRoll(candidate + frame);
        candidate, candidateSpeech := [], 0;
        phase := WaitingForSpeech;
        return Decision([], false, gone, [(SpeechCandidate, WaitingForSpeech)]);
      }
      if phase == InSpeech {
        if p >= config.offset {
          return Decision(frame, false, 0, []);
        }
        trailing := frame;
        phase := TrailingSilence;
        transitions := [(InSpeech, TrailingSilence)];
      } else {
        if p >= config.offset {
          var audio := trailing + frame;
          trailing := [];
          phase := InSpeech;
          return Decision(audio, false, 0, [(TrailingSilence, InSpeech)]);
        }
        trailing := trailing + frame;
      }
      if |trailing| < config.minSilence {
        return Decision([], false, 0, transitions);
      }
      var keep := Min(|trailing|, config.hangover);
      var audio := trailing[..keep];
      preRoll := [];
      var gone := KeepPreRoll(trailing[keep..]);
      trailing := [];
      phase := Finalizing;
      return Decision(audio, true, gone, transitions + [(TrailingSilence, Finalizing)]);
    }

    method KeepPreRoll(audio: Audio) returns (gone: nat)
      modifies this`preRoll
      ensures (preRoll, gone) == AppendPreRoll(config, old(preRoll), audio)
    {
      preRoll := preRoll + audio;
      gone := Max(0, |preRoll| - config.preRoll);
      if |preRoll| > config.preRoll {
        preRoll := preRoll[gone..];
      }
    }
  }

  lemma ThenIdentity(d: Decision)
    ensures Then(NOTHING, d) == d && Then(d, NOTHING) == d
  {
    assert [] + d.audio == d.audio && [] + d.transitions == d.transitions;
  }

  lemma ThenAssociates(a: Decision, b: Decision, c: Decision)
    ensures Then(a, Then(b, c)) == Then(Then(a, b), c)
  {
    assert (a.audio + b.audio) + c.audio == a.audio + (b.audio + c.audio);
    assert (a.transitions + b.transitions) + c.transitions == a.transitions + (b.transitions + c.transitions);
  }
}
