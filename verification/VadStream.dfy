/** What the endpoint detector does to a whole stream, however the stream is cut:
    chunking independence, the endpoint driver loop, and the exact tiling of the input
    into emitted, dropped and held samples. */
module VadStream {
  import opened Pcm
  import opened Vad

  // ----- chunking independence -----------------------------------------------------------

  lemma StepIgnoresLaterInput(c: Config, s: State, later: Audio)
    requires CanStep(c, s)
    ensures CanStep(c, Extend(s, later))
    ensures Step(c, Extend(s, later)) == (Extend(Step(c, s).0, later), Step(c, s).1)
  {
    var frame := s.input[..c.frame];
    assert Extend(s, later).input[..c.frame] == frame;
    assert Extend(s, later).input[c.frame..] == s.input[c.frame..] + later;
    var heard := s.heard + [frame];
    var rest := s.(input := s.input[c.frame..], heard := heard);
    assert Extend(s, later).(input := s.input[c.frame..] + later, heard := heard) == Extend(rest, later);
  }

  lemma {:induction false} DrainExtend(c: Config, s: State, later: Audio)
    ensures var (mid, first) := Drain(c, s);
            var (last, rest) := Drain(c, Extend(mid, later));
            Drain(c, Extend(s, later)) == (last, Then(first, rest))
    decreases |s.input|
  {
    if CanStep(c, s) {
      StepKeepsInput(c, s);
      StepIgnoresLaterInput(c, s, later);
      var (next, first) := Step(c, s);
      DrainExtend(c, next, later);
      var (mid, second) := Drain(c, next);
      ThenAssociates(first, second, Drain(c, Extend(mid, later)).1);
    } else {
      ThenIdentity(Drain(c, Extend(s, later)).1);
    }
  }

  lemma ExtendTwice(s: State, a: Audio, b: Audio)
    ensures Extend(Extend(s, a), b) == Extend(s, a + b)
  {
    assert s.input + (a + b) == (s.input + a) + b;
  }

  /** Feeding `a` and then `b` is feeding `a + b`: same state, audio, discards, transitions
      and endpoint, from any state whatever. */
  lemma AddAudioChunkingIndependent(c: Config, s: State, a: Audio, b: Audio)
    ensures var (mid, first) := AddAudio(c, s, a);
            var (last, second) := AddAudio(c, mid, b);
            AddAudio(c, s, a + b) == (last, Then(first, second))
  {
    ExtendTwice(s, a, b);
    DrainExtend(c, Extend(s, a), b);
  }

  // ----- the driver loop -----------------------------------------------------------------

  /** What the model behind the detector sees: samples, and the ends of utterances. */
  datatype Token = Heard(sample: Sample) | EndOfUtterance

  function Tokens(d: Decision): seq<Token> {
    seq(|d.audio|, i requires 0 <= i < |d.audio| => Heard(d.audio[i])) + (if d.endpoint then [EndOfUtterance] else [])
  }

  lemma TokensThen(first: Decision, second: Decision)
    requires !first.endpoint
    ensures Tokens(Then(first, second)) == Tokens(first) + Tokens(second)
  {
  }

  datatype Driven = Driven(state: State, tokens: seq<Token>, discarded: nat)

  function After(tokens: seq<Token>, discarded: nat, rest: Driven): Driven {
    Driven(rest.state, tokens + rest.tokens, discarded + rest.discarded)
  }

  lemma AfterAssociates(t: seq<Token>, m: nat, u: seq<Token>, n: nat, rest: Driven)
    ensures After(t, m, After(u, n, rest)) == After(t + u, m + n, rest)
  {
    assert t + (u + rest.tokens) == t + u + rest.tokens;
  }

  /** An endpoint is reported exactly when draining reaches Finalizing, and costs a frame;
      short of that the loop stops for want of a frame. */
  lemma {:induction false} DrainStops(c: Config, s: State)
    requires s.phase != Finalizing
    ensures var (last, d) := Drain(c, s);
            && (d.endpoint <==> last.phase == Finalizing)
            && |last.input| <= |s.input|
            && (d.endpoint ==> |last.input| < |s.input|)
            && (!d.endpoint ==> |last.input| < c.frame)
    decreases |s.input|
  {
    if CanStep(c, s) {
      StepKeepsInput(c, s);
      var (next, first) := Step(c, s);
      if next.phase != Finalizing {
        DrainStops(c, next);
      }
    }
  }

  /** Drain; at an endpoint hand it over, re-arm, and go on with what is left. */
  function Drive(c: Config, s: State): Driven
    decreases |s.input|
  {
    var (last, d) := Drain(c, s);
    if s.phase != Finalizing && d.endpoint then
      DrainStops(c, s);
      After(Tokens(d), d.discarded, Drive(c, Rearm(last)))
    else
      Driven(last, Tokens(d), d.discarded)
  }

  lemma {:induction false} DriveExtend(c: Config, s: State, later: Audio)
    requires s.phase != Finalizing
    ensures var first := Drive(c, s);
            && first.state.phase != Finalizing
            && Drive(c, Extend(s, later)) == After(first.tokens, first.discarded, Drive(c, Extend(first.state, later)))
    decreases |s.input|
  {
    var (mid, d) := Drain(c, s);
    DrainStops(c, s);
    if d.endpoint {
      DrainPastEndpoint(c, s, later);
      DriveExtend(c, Rearm(mid), later);
      var rest := Drive(c, Rearm(mid));
      AfterAssociates(Tokens(d), d.discarded, rest.tokens, rest.discarded, Drive(c, Extend(rest.state, later)));
    } else {
      DriveExtendQuiet(c, s, later);
    }
  }

  /** Audio that arrives behind an endpoint waits in the input buffer. */
  lemma DrainPastEndpoint(c: Config, s: State, later: Audio)
    requires s.phase != Finalizing && Drain(c, s).1.endpoint
    ensures var (mid, d) := Drain(c, s);
            && Drain(c, Extend(s, later)) == (Extend(mid, later), d)
            && Rearm(Extend(mid, later)) == Extend(Rearm(mid), later)
  {
    DrainStops(c, s);
    DrainExtend(c, s, later);
    ThenIdentity(Drain(c, s).1);
  }

  lemma DriveExtendQuiet(c: Config, s: State, later: Audio)
    requires s.phase != Finalizing && !Drain(c, s).1.endpoint
    ensures var (mid, d) := Drain(c, s);
            Drive(c, Extend(s, later)) == After(Tokens(d), d.discarded, Drive(c, Extend(mid, later)))
  {
    var (mid, d) := Drain(c, s);
    DrainStops(c, s);
    DrainExtend(c, s, later);
    var (last, e) := Drain(c, Extend(mid, later));
    TokensThen(d, e);
    if e.endpoint {
      AfterAssociates(Tokens(d), d.discarded, Tokens(e), e.discarded, Drive(c, Rearm(last)));
    }
  }

  /** The driver fed one chunk after another from a fresh detector. */
  function Feed(c: Config, chunks: seq<Audio>): Driven {
    if chunks == [] then
      Driven(INITIAL, [], 0)
    else
      var before := Feed(c, chunks[..|chunks| - 1]);
      After(before.tokens, before.discarded, Drive(c, Extend(before.state, chunks[|chunks| - 1])))
  }

  lemma {:induction false} FeedIsOneDrive(c: Config, chunks: seq<Audio>)
    ensures Feed(c, chunks) == Drive(c, Extend(INITIAL, Joined(chunks)))
  {
    if chunks == [] {
      assert Extend(INITIAL, []) == INITIAL;
    } else {
      var front, chunk := chunks[..|chunks| - 1], chunks[|chunks| - 1];
      FeedIsOneDrive(c, front);
      var start := Extend(INITIAL, Joined(front));
      DriveExtend(c, start, chunk);
      ExtendTwice(INITIAL, Joined(front), chunk);
    }
  }

  /** The utterances the tokens spell: the finished ones and the one still open. */
  function Utterances(tokens: seq<Token>): (seq<Audio>, Audio) {
    if tokens == [] then
      ([], [])
    else
      var (finished, open) := Utterances(tokens[..|tokens| - 1]);
      match tokens[|tokens| - 1]
      case Heard(sample) => (finished, open + [sample])
      case EndOfUtterance => (finished + [open], [])
  }

  /** Two chunkings of one stream give the same utterances, the same detector state and the
      same number of discarded samples. */
  lemma ChunkingIndependentUtterances(c: Config, left: seq<Audio>, right: seq<Audio>)
    requires Joined(left) == Joined(right)
    ensures Feed(c, left) == Feed(c, right)
    ensures Utterances(Feed(c, left).tokens) == Utterances(Feed(c, right).tokens)
  {
    FeedIsOneDrive(c, left);
    FeedIsOneDrive(c, right);
  }

  /** One turn of the driver: what the hand-shake reports is what comes next. */
  lemma DriveResumes(c: Config, s: State, tokens: seq<Token>, discarded: nat)
    requires s.phase == Finalizing
    ensures var (last, d) := EndpointFinalized(c, s);
            && (d.endpoint <==> last.phase == Finalizing)
            && (d.endpoint ==> |last.input| < |s.input|)
            && After(tokens, discarded, Drive(c, Rearm(s))) ==
               if d.endpoint then After(tokens + Tokens(d), discarded + d.discarded, Drive(c, Rearm(last)))
               else Driven(last, tokens + Tokens(d), discarded + d.discarded)
  {
    var (last, d) := EndpointFinalized(c, s);
    DrainStops(c, Rearm(s));
    var rest := Drain(c, Rearm(s)).1;
    assert d.audio == rest.audio;
    assert Tokens(d) == Tokens(rest);
    if d.endpoint {
      AfterAssociates(tokens, discarded, Tokens(d), d.discarded, Drive(c, Rearm(last)));
    }
  }

  /** The loop of the streaming controller. */
  method DriveBytes(vad: EndpointDetector, bytes: seq<Byte>) returns (r: Result<(seq<Token>, nat), string>)
    requires vad.phase != Finalizing
    modifies vad
    ensures r.Ok? <==> Aligned(bytes)
    ensures r.Err? ==> vad.View() == old(vad.View())
    ensures r.Ok? ==> vad.phase != Finalizing
    ensures r.Ok? ==> Driven(vad.View(), r.value.0, r.value.1)
                      == Drive(vad.config, Extend(old(vad.View()), Decode(bytes)))
  {
    ghost var start := Extend(vad.View(), if Aligned(bytes) then Decode(bytes) else []);
    var added := vad.AddBytes(bytes);
    if added.Err? {
      return Err(added.error);
    }
    var d := added.value;
    DrainStops(vad.config, start);
    var tokens := Tokens(d);
    var discarded: nat := d.discarded;
    while d.endpoint
      invariant d.endpoint <==> vad.phase == Finalizing
      invariant Drive(vad.config, start) ==
                if d.endpoint then After(tokens, discarded, Drive(vad.config, Rearm(vad.View())))
                else Driven(vad.View(), tokens, discarded)
      decreases if d.endpoint then |vad.inputBuffer| + 1 else 0
    {
      DriveResumes(vad.config, vad.View(), tokens, discarded);
      d := vad.Finalized();
      tokens, discarded := tokens + Tokens(d), discarded + d.discarded;
    }
    return Ok((tokens, discarded));
  }

  /** One more chunk of bytes, at the level of samples. */
  lemma OneChunkMore(c: Config, before: seq<Byte>, chunk: seq<Byte>)
    requires Aligned(before) && Aligned(chunk)
    ensures Aligned(before + chunk)
    ensures var so := Drive(c, Extend(INITIAL, Decode(before)));
            && so.state.phase != Finalizing
            && Drive(c, Extend(INITIAL, Decode(before + chunk)))
               == After(so.tokens, so.discarded, Drive(c, Extend(so.state, Decode(chunk))))
  {
    DecodeConcat(before, chunk);
    DriveExtend(c, Extend(INITIAL, Decode(before)), Decode(chunk));
    ExtendTwice(INITIAL, Decode(before), Decode(chunk));
  }

  lemma JoinedNext(chunks: seq<seq<Byte>>, n: nat)
    requires n < |chunks|
    ensures Joined(chunks[..n + 1]) == Joined(chunks[..n]) + chunks[n]
  {
    assert chunks[..n + 1] == chunks[..n] + [chunks[n]];
    JoinedSnoc(chunks[..n], chunks[n]);
  }

  /** A stream of byte chunks from a fresh detector, refused at the first that is not whole
      samples. What comes out depends on the bytes alone, not on how they were cut. */
  method DriveChunks(vad: EndpointDetector, chunks: seq<seq<Byte>>) returns (r: Result<(seq<Token>, nat), string>)
    requires vad.View() == INITIAL
    modifies vad
    ensures r.Ok? <==> forall i | 0 <= i < |chunks| :: Aligned(chunks[i])
    ensures r.Ok? ==> Aligned(Joined(chunks))
    ensures r.Ok? ==> Driven(vad.View(), r.value.0, r.value.1)
                      == Drive(vad.config, Extend(INITIAL, Decode(Joined(chunks))))
  {
    var tokens: seq<Token>, discarded: nat := [], 0;
    ghost var heard: seq<Byte> := [];
    assert chunks[..0] == [];
    assert Extend(INITIAL, Decode([])) == INITIAL;
    for n := 0 to |chunks|
      invariant forall i | 0 <= i < n :: Aligned(chunks[i])
      invariant heard == Joined(chunks[..n]) && Aligned(heard)
      invariant Driven(vad.View(), tokens, discarded) == Drive(vad.config, Extend(INITIAL, Decode(heard)))
      invariant vad.phase != Finalizing
    {
      var driven := DriveBytes(vad, chunks[n]);
      if driven.Err? {
        return Err(driven.error);
      }
      OneChunkMore(vad.config, heard, chunks[n]);
      JoinedNext(chunks, n);
      heard := heard + chunks[n];
      tokens, discarded := tokens + driven.value.0, discarded + driven.value.1;
    }
    assert chunks[..|chunks|] == chunks;
    return Ok((tokens, discarded));
  }

  // ----- exact tiling --------------------------------------------------------------------

  /** Everything inside the detector, oldest sample first. */
  function Held(s: State): Audio {
    s.preRoll + s.candidate + s.trailing + s.input
  }

  /** At most one of the three middle buffers is occupied, and each is bounded. */
  predicate Inv(c: Config, s: State) {
    && |s.preRoll| <= c.preRoll
    && (s.phase == WaitingForSpeech || s.phase == Finalizing ==> s.candidate == [] && s.trailing == [])
    && (s.phase == SpeechCandidate ==>
          && s.preRoll == [] && s.trailing == []
          && s.candidateSpeech < c.minSpeech && |s.candidate| <= c.preRoll + s.candidateSpeech)
    && (s.phase == InSpeech ==> s.preRoll == [] && s.candidate == [] && s.trailing == [])
    && (s.phase == TrailingSilence ==> s.preRoll == [] && s.candidate == [] && |s.trailing| < c.minSilence)
  }

  /** A stretch of the stream: some samples passed on, then some dropped. */
  datatype Piece = Piece(emitted: Audio, dropped: Audio)

  function Stream(t: seq<Piece>): Audio {
    if t == [] then [] else Stream(t[..|t| - 1]) + (t[|t| - 1].emitted + t[|t| - 1].dropped)
  }

  function Emitted(t: seq<Piece>): Audio {
    if t == [] then [] else Emitted(t[..|t| - 1]) + t[|t| - 1].emitted
  }

  function Dropped(t: seq<Piece>): Audio {
    if t == [] then [] else Dropped(t[..|t| - 1]) + t[|t| - 1].dropped
  }

  /** `before` is, in order, emitted and dropped pieces followed by `after`; the emitted
      ones spell `audio` and the dropped ones number `discarded`. */
  ghost predicate Tiles(before: Audio, audio: Audio, discarded: nat, after: Audio) {
    exists t: seq<Piece> ::
      Stream(t) + after == before && Emitted(t) == audio && |Dropped(t)| == discarded
  }

  lemma Regroup(a: Audio, b: Audio, c: Audio)
    ensures a + (b + c) == (a + b) + c
  {
  }

  lemma {:induction false} PiecesConcat(t: seq<Piece>, u: seq<Piece>)
    ensures Stream(t + u) == Stream(t) + Stream(u)
    ensures Emitted(t + u) == Emitted(t) + Emitted(u)
    ensures Dropped(t + u) == Dropped(t) + Dropped(u)
  {
    if u == [] {
      assert t + u == t;
    } else {
      var front, last := u[..|u| - 1], u[|u| - 1];
      PiecesConcat(t, front);
      assert (t + u)[..|t + u| - 1] == t + front;
      Regroup(Stream(t), Stream(front), last.emitted + last.dropped);
      Regroup(Emitted(t), Emitted(front), last.emitted);
      Regroup(Dropped(t), Dropped(front), last.dropped);
    }
  }

  lemma TilesRefl(held: Audio)
    ensures Tiles(held, [], 0, held)
  {
    assert Stream([]) + held == held;
  }

  /** Cutting a stretch at two points passes on its start and drops its middle. */
  lemma TilesSplit(before: Audio, i: nat, j: nat)
    requires i <= j <= |before|
    ensures Tiles(before, before[..i], j - i, before[j..])
  {
    var t := [Piece(before[..i], before[i..j])];
    assert Stream(t[..0]) == [] && Emitted(t[..0]) == [] && Dropped(t[..0]) == [];
    assert Emitted(t) == before[..i] && Dropped(t) == before[i..j];
    assert before[..i] + before[i..j] == before[..j] && before[..j] + before[j..] == before;
    assert Stream(t) == before[..j];
  }

  /** More audio may arrive between two tilings. */
  lemma TilesThen(a: Audio, x: Audio, m: nat, b: Audio, fed: Audio, y: Audio, n: nat, e: Audio)
    requires Tiles(a, x, m, b) && Tiles(b + fed, y, n, e)
    ensures Tiles(a + fed, x + y, m + n, e)
  {
    var t: seq<Piece> :| Stream(t) + b == a && Emitted(t) == x && |Dropped(t)| == m;
    var u: seq<Piece> :| Stream(u) + e == b + fed && Emitted(u) == y && |Dropped(u)| == n;
    PiecesConcat(t, u);
    Splice(Stream(t), b, fed, Stream(u), e);
  }

  lemma Splice(p: Audio, b: Audio, fed: Audio, q: Audio, e: Audio)
    requires q + e == b + fed
    ensures (p + q) + e == (p + b) + fed
  {
    Regroup(p, q, e);
    Regroup(p, b, fed);
  }

  lemma StepTiles(c: Config, s: State)
    requires Inv(c, s) && CanStep(c, s)
    ensures var (next, d) := Step(c, s);
            Inv(c, next) && Tiles(Held(s), d.audio, d.discarded, Held(next))
  {
    var (next, d) := Step(c, s);
    StepKeepsInput(c, s);
    var frame := s.input[..c.frame];
    var middle := s.preRoll + s.candidate + s.trailing;
    var held := next.preRoll + next.candidate + next.trailing;
    assert Tiles(middle + frame, d.audio, d.discarded, held) && Inv(c, next) by {
      FrameTiles(c, s.(input := s.input[c.frame..], heard := s.heard + [frame]), frame,
                 c.probability(s.heard + [frame]));
    }
    TilesRefl(held + next.input);
    assert d.audio + [] == d.audio;
    TilesThen(middle + frame, d.audio, d.discarded, held, next.input, [], 0, held + next.input);
    Regroup(middle, frame, next.input);
    assert frame + next.input == s.input;
  }

  /** `before` is the audio of `d`, then what it dropped, then what `next` holds back. */
  ghost predicate SplitInTwo(c: Config, before: Audio, next: State, d: Decision) {
    && Inv(c, next)
    && |d.audio| + d.discarded <= |before|
    && d.audio == before[..|d.audio|]
    && next.preRoll + next.candidate + next.trailing == before[|d.audio| + d.discarded..]
  }

  /** A frame before speech is buffered, or opens a candidate. */
  lemma WaitingFrame(c: Config, s: State, frame: Audio, p: real)
    requires Inv(c, s) && |frame| == c.frame
    requires s.phase == WaitingForSpeech
    ensures var (next, d) := ProcessFrame(c, s, frame, p);
            SplitInTwo(c, s.preRoll + s.candidate + s.trailing + frame, next, d)
  {
    var before := s.preRoll + s.candidate + s.trailing + frame;
    var (next, d) := ProcessFrame(c, s, frame, p);
    assert before == s.preRoll + frame;
    assert next.preRoll + next.candidate + next.trailing == before[|d.audio| + d.discarded..];
  }

  /** A frame of a candidate confirms it, lengthens it, or sends it back to the pre-roll. */
  lemma CandidateFrame(c: Config, s: State, frame: Audio, p: real)
    requires Inv(c, s) && |frame| == c.frame
    requires s.phase == SpeechCandidate
    ensures var (next, d) := ProcessFrame(c, s, frame, p);
            SplitInTwo(c, s.preRoll + s.candidate + s.trailing + frame, next, d)
  {
    assert s.preRoll + s.candidate + s.trailing + frame == s.candidate + frame;
    if p >= c.offset {
      CandidateGrows(c, s, frame, p);
    } else {
      CandidateFades(c, s, frame, p);
    }
  }

  lemma CandidateGrows(c: Config, s: State, frame: Audio, p: real)
    requires Inv(c, s) && |frame| == c.frame
    requires s.phase == SpeechCandidate && p >= c.offset
    ensures var (next, d) := ProcessFrame(c, s, frame, p);
            SplitInTwo(c, s.candidate + frame, next, d)
  {
    var (next, d) := ProcessFrame(c, s, frame, p);
    assert next.preRoll + next.candidate + next.trailing == next.candidate;
    assert d.audio == [] ==> (s.candidate + frame)[0..] == s.candidate + frame;
  }

  lemma CandidateFades(c: Config, s: State, frame: Audio, p: real)
    requires Inv(c, s) && |frame| == c.frame
    requires s.phase == SpeechCandidate && p < c.offset
    ensures var (next, d) := ProcessFrame(c, s, frame, p);
            SplitInTwo(c, s.candidate + frame, next, d)
  {
    var (next, d) := ProcessFrame(c, s, frame, p);
    assert [] + (s.candidate + frame) == s.candidate + frame;
    assert next.preRoll + next.candidate + next.trailing == next.preRoll;
  }

  /** A voiced frame of an utterance is passed on at once, after any silence it ends. */
  lemma VoicedFrame(c: Config, s: State, frame: Audio, p: real)
    requires Inv(c, s) && |frame| == c.frame
    requires (s.phase == InSpeech || s.phase == TrailingSilence) && p >= c.offset
    ensures var (next, d) := ProcessFrame(c, s, frame, p);
            SplitInTwo(c, s.preRoll + s.candidate + s.trailing + frame, next, d)
  {
    var before := s.preRoll + s.candidate + s.trailing + frame;
    assert before == s.trailing + frame;
  }

  /** A silent frame of an utterance ends it or waits. */
  lemma CloseSplits(c: Config, s: State, transitions: seq<Transition>)
    requires s.phase == TrailingSilence && s.preRoll == [] && s.candidate == []
    ensures var (next, d) := CloseIfSilent(c, s, transitions);
            SplitInTwo(c, s.trailing, next, d)
  {
    if |s.trailing| < c.minSilence {
      assert [] + [] + s.trailing == s.trailing;
    } else {
      var keep := Min(|s.trailing|, c.hangover);
      var rest := s.trailing[keep..];
      assert [] + rest == rest;
      var gone := Max(0, |rest| - c.preRoll);
      assert rest[gone..] + [] + [] == s.trailing[keep + gone..];
    }
  }

  /** Every frame is cut in two: what is passed on comes first, then what is dropped, and the
      end is held back. */
  lemma FrameSplits(c: Config, s: State, frame: Audio, p: real)
    requires Inv(c, s) && s.phase != Finalizing && |frame| == c.frame
    ensures var (next, d) := ProcessFrame(c, s, frame, p);
            SplitInTwo(c, s.preRoll + s.candidate + s.trailing + frame, next, d)
  {
    var before := s.preRoll + s.candidate + s.trailing + frame;
    if s.phase == InSpeech && p < c.offset {
      assert before == frame;
      CloseSplits(c, s.(phase := TrailingSilence, trailing := frame), [(InSpeech, TrailingSilence)]);
    } else if s.phase == TrailingSilence && p < c.offset {
      assert before == s.trailing + frame;
      CloseSplits(c, s.(trailing := s.trailing + frame), []);
    } else if s.phase == WaitingForSpeech {
      WaitingFrame(c, s, frame, p);
    } else if s.phase == SpeechCandidate {
      CandidateFrame(c, s, frame, p);
    } else {
      VoicedFrame(c, s, frame, p);
    }
  }

  lemma FrameTiles(c: Config, s: State, frame: Audio, p: real)
    requires Inv(c, s) && s.phase != Finalizing && |frame| == c.frame
    ensures var (next, d) := ProcessFrame(c, s, frame, p);
            && Inv(c, next)
            && Tiles(s.preRoll + s.candidate + s.trailing + frame, d.audio, d.discarded,
                     next.preRoll + next.candidate + next.trailing)
  {
    var (next, d) := ProcessFrame(c, s, frame, p);
    FrameSplits(c, s, frame, p);
    TilesSplit(s.preRoll + s.candidate + s.trailing + frame, |d.audio|, |d.audio| + d.discarded);
  }

  lemma {:induction false} DrainTiles(c: Config, s: State)
    requires Inv(c, s)
    ensures var (last, d) := Drain(c, s);
            Inv(c, last) && Tiles(Held(s), d.audio, d.discarded, Held(last))
    decreases |s.input|
  {
    if CanStep(c, s) {
      StepKeepsInput(c, s);
      StepTiles(c, s);
      var (next, first) := Step(c, s);
      DrainTiles(c, next);
      var (last, rest) := Drain(c, next);
      assert Held(next) + [] == Held(next) && Held(s) + [] == Held(s);
      TilesThen(Held(s), first.audio, first.discarded, Held(next), [], rest.audio, rest.discarded, Held(last));
    } else {
      TilesRefl(Held(s));
    }
  }

  lemma FinishTiles(c: Config, s: State)
    requires Inv(c, s)
    ensures var (last, d) := FinishInput(c, s);
            && Inv(c, last) && Held(last) == []
            && Tiles(Held(s), d.audio, d.discarded, [])
  {
    DrainTiles(c, s);
    var (mid, drained) := Drain(c, s);
    var (last, d) := Flush(c, mid, drained);
    FlushTiles(c, mid, drained);
    assert Held(s) + [] == Held(s) && Held(mid) + [] == Held(mid);
    var tail := d.audio[|drained.audio|..];
    TilesThen(Held(s), drained.audio, drained.discarded, Held(mid), [], tail, d.discarded - drained.discarded, []);
    assert drained.audio + tail == d.audio;
  }

  lemma FlushTiles(c: Config, mid: State, drained: Decision)
    requires Inv(c, mid)
    ensures var (last, d) := Flush(c, mid, drained);
            && Inv(c, last) && Held(last) == []
            && drained.audio <= d.audio && drained.discarded <= d.discarded
            && Tiles(Held(mid), d.audio[|drained.audio|..], d.discarded - drained.discarded, [])
  {
    var (last, d) := Flush(c, mid, drained);
    var tail := d.audio[|drained.audio|..];
    var all := Held(mid);
    if mid.phase == InSpeech {
      assert all == mid.input == tail;
    } else if mid.phase == TrailingSilence {
      assert all == mid.trailing + mid.input;
      assert tail == all[..|tail|];
    } else {
      assert tail == all[..0] == [];
    }
    TilesSplit(all, |tail|, |all|);
  }

  // ----- tiling of whole runs ------------------------------------------------------------

  datatype Command = Add(audio: Audio) | Finalize | Finish

  function Apply(c: Config, s: State, command: Command): (State, Decision) {
    match command
    case Add(audio) => AddAudio(c, s, audio)
    case Finalize => EndpointFinalized(c, s)
    case Finish => FinishInput(c, s)
  }

  function Fed(command: Command): Audio {
    if command.Add? then command.audio else []
  }

  lemma ApplyTiles(c: Config, s: State, command: Command)
    requires Inv(c, s)
    ensures var (last, d) := Apply(c, s, command);
            && Inv(c, last)
            && Tiles(Held(s) + Fed(command), d.audio, d.discarded, Held(last))
            && (command.Finish? ==> Held(last) == [])
  {
    match command
    case Add(audio) =>
      AddTiles(c, s, audio);
    case Finalize =>
      FinalizeTiles(c, s);
      assert Held(s) + [] == Held(s);
    case Finish =>
      FinishTiles(c, s);
      assert Held(s) + [] == Held(s);
  }

  lemma AddTiles(c: Config, s: State, audio: Audio)
    requires Inv(c, s)
    ensures var (last, d) := AddAudio(c, s, audio);
            Inv(c, last) && Tiles(Held(s) + audio, d.audio, d.discarded, Held(last))
  {
    DrainTiles(c, Extend(s, audio));
    assert Held(Extend(s, audio)) == Held(s) + audio;
  }

  lemma FinalizeTiles(c: Config, s: State)
    requires Inv(c, s)
    ensures var (last, d) := EndpointFinalized(c, s);
            Inv(c, last) && Tiles(Held(s), d.audio, d.discarded, Held(last))
  {
    if s.phase == Finalizing {
      DrainTiles(c, Rearm(s));
      assert Held(Rearm(s)) == Held(s);
      var d := Drain(c, Rearm(s)).1;
      assert [] + d.audio == d.audio;
    } else {
      TilesRefl(Held(s));
    }
  }

  /** A run between two resets, with everything it was fed, passed on and dropped. */
  datatype Run = Run(state: State, fed: Audio, audio: Audio, discarded: nat)

  function RunOf(c: Config, commands: seq<Command>): Run {
    if commands == [] then
      Run(INITIAL, [], [], 0)
    else
      var before := RunOf(c, commands[..|commands| - 1]);
      var command := commands[|commands| - 1];
      var (last, d) := Apply(c, before.state, command);
      Run(last, before.fed + Fed(command), before.audio + d.audio, before.discarded + d.discarded)
  }

  /** Over any run the stream fed is exactly the emitted and dropped pieces, in order,
      followed by the pre-roll, the candidate, the trailing silence and the input buffer. */
  lemma {:induction false} ExactTiling(c: Config, commands: seq<Command>)
    ensures var r := RunOf(c, commands);
            && Inv(c, r.state)
            && Tiles(r.fed, r.audio, r.discarded, Held(r.state))
            && (commands != [] && commands[|commands| - 1].Finish? ==> Held(r.state) == [])
  {
    if commands == [] {
      TilesRefl([]);
    } else {
      var front, command := commands[..|commands| - 1], commands[|commands| - 1];
      ExactTiling(c, front);
      var before := RunOf(c, front);
      ApplyTiles(c, before.state, command);
      var (last, d) := Apply(c, before.state, command);
      TilesThen(before.fed, before.audio, before.discarded, Held(before.state), Fed(command),
                d.audio, d.discarded, Held(last));
    }
  }

  lemma {:induction false} PiecesCount(t: seq<Piece>)
    ensures |Stream(t)| == |Emitted(t)| + |Dropped(t)|
  {
    if t != [] {
      PiecesCount(t[..|t| - 1]);
    }
  }

  /** No sample is lost or invented: held before plus fed is passed on, dropped or held. */
  lemma SamplesConserved(c: Config, s: State, command: Command)
    requires Inv(c, s)
    ensures var (last, d) := Apply(c, s, command);
            && Inv(c, last)
            && |Held(s)| + |Fed(command)| == |d.audio| + d.discarded + |Held(last)|
            && (command.Finish? ==> Held(last) == [])
  {
    ApplyTiles(c, s, command);
    var (last, d) := Apply(c, s, command);
    var t: seq<Piece> :|
      Stream(t) + Held(last) == Held(s) + Fed(command) && Emitted(t) == d.audio && |Dropped(t)| == d.discarded;
    PiecesCount(t);
    assert |Stream(t) + Held(last)| == |Held(s) + Fed(command)|;
  }

  function Bound(c: Config): int {
    Max(c.preRoll + c.minSpeech, c.minSilence) + c.frame
  }

  ghost predicate Bounded(c: Config, s: State) {
    s.phase != Finalizing ==> |Held(s)| < Bound(c)
  }

  /** Draining leaves less than a frame behind the buffers, or stops at an endpoint. */
  lemma DrainedIsBounded(c: Config, s: State)
    requires Inv(c, s)
    ensures Bounded(c, Drain(c, s).0)
  {
    DrainTiles(c, s);
    if s.phase != Finalizing {
      DrainStops(c, s);
    }
  }

  lemma ApplyBounded(c: Config, s: State, command: Command)
    requires Inv(c, s) && Bounded(c, s)
    ensures Bounded(c, Apply(c, s, command).0)
  {
    match command
    case Add(audio) =>
      DrainedIsBounded(c, Extend(s, audio));
    case Finalize =>
      if s.phase == Finalizing {
        DrainedIsBounded(c, Rearm(s));
      }
    case Finish =>
      FinishTiles(c, s);
  }

  /** After every run, outside Finalizing, the detector holds less than one frame beyond the
      longer of a full candidate and a full trailing silence. */
  lemma {:induction false} HeldIsBounded(c: Config, commands: seq<Command>)
    ensures Bounded(c, RunOf(c, commands).state)
  {
    if commands != [] {
      var front := commands[..|commands| - 1];
      HeldIsBounded(c, front);
      ExactTiling(c, front);
      ApplyBounded(c, RunOf(c, front).state, commands[|commands| - 1]);
    }
  }
}
