/** When the detector passes audio on and when it reports an endpoint, said without its phases
    and buffers: by the probabilities of the frames and its own earlier endpoints. */
module VadHysteresis {
  import opened Pcm
  import opened Vad
  import opened VadStream

  /** One frame of a driven run: its probability and what the detector decided on it. */
  datatype Beat = Beat(p: real, d: Decision)

  /** The driver's run, frame by frame. */
  function Beats(c: Config, s: State): seq<Beat>
    decreases |s.input|, if s.phase == Finalizing then 1 else 0
  {
    if s.phase == Finalizing then
      Beats(c, Rearm(s))
    else if |s.input| < c.frame then
      []
    else
      StepKeepsInput(c, s);
      [BeatOf(c, s)] + Beats(c, Step(c, s).0)
  }

  function BeatOf(c: Config, s: State): Beat
    requires CanStep(c, s)
  {
    Beat(c.probability(s.heard + [s.input[..c.frame]]), Step(c, s).1)
  }

  function Spelled(beats: seq<Beat>): seq<Token> {
    if beats == [] then [] else Tokens(beats[0].d) + Spelled(beats[1..])
  }

  /** One turn of the driver. */
  lemma DriveStep(c: Config, s: State)
    requires CanStep(c, s)
    ensures var (next, d) := Step(c, s);
            var rest := Drive(c, if next.phase == Finalizing then Rearm(next) else next);
            Drive(c, s).tokens == Tokens(d) + rest.tokens && Drive(c, s).state == rest.state
  {
    StepKeepsInput(c, s);
    var (next, d) := Step(c, s);
    var (last, rest) := Drain(c, next);
    if next.phase == Finalizing {
      ThenIdentity(d);
      assert Drain(c, s) == (next, d);
    } else {
      TokensThen(d, rest);
      DrainStops(c, next);
      if rest.endpoint {
        AfterAssociates(Tokens(d), d.discarded, Tokens(rest), rest.discarded, Drive(c, Rearm(last)));
      }
    }
  }

  /** The beats are the driver's run: they spell the tokens it delivers. */
  lemma {:induction false} BeatsSpellTokens(c: Config, s: State)
    requires s.phase != Finalizing
    ensures Spelled(Beats(c, s)) == Drive(c, s).tokens
    decreases |s.input|
  {
    if CanStep(c, s) {
      StepKeepsInput(c, s);
      DriveStep(c, s);
      var (next, d) := Step(c, s);
      var resumed := if next.phase == Finalizing then Rearm(next) else next;
      BeatsSpellTokens(c, resumed);
      assert Beats(c, s) == [BeatOf(c, s)] + Beats(c, resumed);
    }
  }

  // ----- the declarative reading ---------------------------------------------------------

  /** Frames `i .. i + k`: the first reaches the onset threshold, the rest the offset one. */
  ghost predicate SpeechRun(c: Config, b: seq<Beat>, i: int, k: int) {
    && 0 <= i && 1 <= k && i + k <= |b|
    && b[i].p >= c.onset
    && forall j | i < j < i + k :: b[j].p >= c.offset
  }

  ghost predicate NoEndpoint(b: seq<Beat>, i: int, n: int) {
    0 <= i && n <= |b| && forall x | i <= x < n :: !b[x].d.endpoint
  }

  /** A run of speech long enough to open an utterance ended by frame `m`, and no endpoint
      has come between its start and frame `n`. */
  ghost predicate Opens(c: Config, b: seq<Beat>, i: int, k: int, m: int, n: int) {
    SpeechRun(c, b, i, k) && k * c.frame >= c.minSpeech && i + k <= m && NoEndpoint(b, i, n)
  }

  ghost predicate Open(c: Config, b: seq<Beat>, m: int, n: int) {
    exists i, k :: Opens(c, b, i, k, m, n)
  }

  /** The `q` frames before frame `n` are all below the offset threshold. */
  ghost predicate SilentRun(c: Config, b: seq<Beat>, n: int, q: int) {
    0 <= q <= n <= |b| && forall j | n - q <= j < n :: b[j].p < c.offset
  }

  /** Frame `i` completes the minimum silence of an utterance that was open before it. */
  ghost predicate SilenceCompletes(c: Config, b: seq<Beat>, i: int, q: int) {
    SilentRun(c, b, i + 1, q) && q * c.frame >= c.minSilence && Open(c, b, i + 1 - q, i)
  }

  ghost predicate EndpointDue(c: Config, b: seq<Beat>, i: int) {
    exists q :: SilenceCompletes(c, b, i, q)
  }

  /** The decision on frame `i` is the one the probabilities call for: an endpoint exactly
      when the minimum silence is complete, audio exactly at an endpoint or on a voiced
      frame of an open utterance. */
  ghost predicate Called(c: Config, b: seq<Beat>, i: int)
    requires 0 <= i < |b|
  {
    && (b[i].d.endpoint <==> EndpointDue(c, b, i))
    && (b[i].d.audio != [] <==> b[i].d.endpoint || (b[i].p >= c.offset && Open(c, b, i + 1, i)))
  }

  // ----- the invariant -------------------------------------------------------------------

  /** A run that no endpoint has closed yet. */
  ghost predicate Pending(c: Config, b: seq<Beat>, i: int, k: int) {
    SpeechRun(c, b, i, k) && NoEndpoint(b, i, |b|)
  }

  /** Every pending run is too short, and one that reaches the last frame has at most `k0`
      frames. */
  ghost predicate Unopened(c: Config, b: seq<Beat>, k0: int) {
    forall i, k | Pending(c, b, i, k) :: k * c.frame < c.minSpeech && (i + k == |b| ==> k <= k0)
  }

  ghost predicate CandidateRun(c: Config, s: State, b: seq<Beat>, k: int) {
    && k * c.frame == s.candidateSpeech
    && Pending(c, b, |b| - k, k)
    && Unopened(c, b, k)
  }

  ghost predicate TrailingRun(c: Config, s: State, b: seq<Beat>, q: int) {
    && 1 <= q < |b|
    && q * c.frame == |s.trailing|
    && SilentRun(c, b, |b|, q)
    && b[|b| - q - 1].p >= c.offset
    && Open(c, b, |b| - q, |b|)
  }

  ghost predicate Linked(c: Config, s: State, b: seq<Beat>) {
    match s.phase
    case WaitingForSpeech => Unopened(c, b, 0)
    case Finalizing => Unopened(c, b, 0)
    case SpeechCandidate => exists k :: CandidateRun(c, s, b, k)
    case InSpeech => b != [] && b[|b| - 1].p >= c.offset && Open(c, b, |b|, |b|)
    case TrailingSilence => exists q :: TrailingRun(c, s, b, q)
  }

  lemma TimesMonotone(a: int, b: int, n: nat)
    requires a <= b
    ensures a * n <= b * n
  {
  }

  /** A fact about the past stays true when a frame is added. */
  lemma OpenGrows(c: Config, b: seq<Beat>, x: Beat, m: int, n: int)
    requires m <= |b| && n <= |b|
    ensures Open(c, b + [x], m, n) <==> Open(c, b, m, n)
  {
    var b' := b + [x];
    forall i, k | i + k <= |b|
      ensures Opens(c, b, i, k, m, n) <==> Opens(c, b', i, k, m, n)
    {
      if 0 <= i && 1 <= k {
        assert forall j | 0 <= j < |b| :: b'[j] == b[j];
      }
    }
  }

  lemma OpenExtends(c: Config, b: seq<Beat>, x: Beat, m: int)
    requires m <= |b| && Open(c, b, m, |b|) && !x.d.endpoint
    ensures Open(c, b + [x], m, |b| + 1)
  {
    var b' := b + [x];
    var i, k :| Opens(c, b, i, k, m, |b|);
    assert forall j | 0 <= j < |b| :: b'[j] == b[j];
    assert Opens(c, b', i, k, m, |b| + 1);
  }

  lemma OpenLoosens(c: Config, b: seq<Beat>, m: int, m': int, n: int, n': int)
    requires Open(c, b, m, n) && m <= m' && n' <= n
    ensures Open(c, b, m', n')
  {
    var i, k :| Opens(c, b, i, k, m, n);
    assert Opens(c, b, i, k, m', n');
  }

  /** After an endpoint nothing is pending. */
  lemma EndpointClears(c: Config, b: seq<Beat>, k0: int)
    requires b != [] && b[|b| - 1].d.endpoint
    ensures Unopened(c, b, k0)
  {
    forall i, k
      ensures !Pending(c, b, i, k)
    {
      assert b[|b| - 1].d.endpoint;
    }
  }

  /** An utterance that has not opened cannot be open. */
  lemma UnopenedIsNotOpen(c: Config, b: seq<Beat>, k0: int, x: Beat, m: int)
    requires Unopened(c, b, k0) && m <= |b|
    ensures !Open(c, b + [x], m, |b|)
  {
    OpenGrows(c, b, x, m, |b|);
    forall i, k
      ensures !Opens(c, b, i, k, m, |b|)
    {
      assert Pending(c, b, i, k) ==> k * c.frame < c.minSpeech;
    }
  }

  /** A pending run after one more frame is the new frame alone, an old run, or an old run
      that reached the end and grew by one. */
  lemma PendingShrinks(c: Config, b: seq<Beat>, x: Beat, i: int, k: int)
    requires Pending(c, b + [x], i, k)
    ensures i + k <= |b| ==> Pending(c, b, i, k)
    ensures i + k == |b| + 1 && k > 1 ==> Pending(c, b, i, k - 1) && x.p >= c.offset
    ensures i + k == |b| + 1 && k == 1 ==> x.p >= c.onset
  {
    var b' := b + [x];
    assert forall j | 0 <= j < |b| :: b'[j] == b[j];
    if i + k == |b| + 1 && k > 1 {
      assert b'[|b|] == x;
    }
  }

  lemma UnopenedGrows(c: Config, b: seq<Beat>, k0: int, x: Beat, k1: int)
    requires Unopened(c, b, k0) && 0 <= k0 && !x.d.endpoint
    requires if x.p >= c.onset || (x.p >= c.offset && k0 > 0) then k0 + 1 <= k1 else 0 <= k1
    requires k1 * c.frame < c.minSpeech
    requires c.onset >= c.offset
    ensures Unopened(c, b + [x], k1)
  {
    forall i, k | Pending(c, b + [x], i, k)
      ensures k * c.frame < c.minSpeech && (i + k == |b| + 1 ==> k <= k1)
    {
      PendingShrinks(c, b, x, i, k);
      if i + k == |b| + 1 {
        TimesMonotone(k, k1, c.frame);
      }
    }
  }

  // ----- one frame, phase by phase -------------------------------------------------------

  ghost predicate Continues(c: Config, s: State, b: seq<Beat>) {
    CanStep(c, s) && Inv(c, s) && Linked(c, s, b) && c.onset >= c.offset
  }

  /** A silence that completes has at least one frame. */
  lemma TooShortToMatter(c: Config, q: int)
    ensures q <= 0 ==> q * c.frame < c.minSilence
  {
    if q <= 0 {
      TimesMonotone(q, 0, c.frame);
    }
  }

  /** Before an utterance is open no endpoint is due, and no audio unless this frame opens it. */
  lemma NotOpenYet(c: Config, b: seq<Beat>, k0: int, x: Beat)
    requires Unopened(c, b, k0)
    ensures !EndpointDue(c, b + [x], |b|)
  {
    forall q
      ensures !SilenceCompletes(c, b + [x], |b|, q)
    {
      TooShortToMatter(c, q);
      if 1 <= q {
        UnopenedIsNotOpen(c, b, k0, x, |b| + 1 - q);
      }
    }
  }

  /** The frame that completes a confirming run of `k` frames opens the utterance. */
  lemma Confirms(c: Config, b: seq<Beat>, x: Beat, k: int)
    requires k >= 1 && k * c.frame >= c.minSpeech && !x.d.endpoint
    requires if k == 1 then x.p >= c.onset else Pending(c, b, |b| - (k - 1), k - 1) && x.p >= c.offset
    ensures Open(c, b + [x], |b| + 1, |b| + 1) && Open(c, b + [x], |b| + 1, |b|)
  {
    var b' := b + [x];
    assert forall j | 0 <= j < |b| :: b'[j] == b[j];
    assert b'[|b|] == x;
    var i := |b| + 1 - k;
    assert SpeechRun(c, b', i, k);
    assert Opens(c, b', i, k, |b| + 1, |b| + 1);
    assert Opens(c, b', i, k, |b| + 1, |b|);
  }

  /** Without a confirming run the frame finds no open utterance. */
  lemma Unconfirmed(c: Config, b: seq<Beat>, k0: int, x: Beat, k1: int)
    requires Unopened(c, b, k0)
    requires !x.d.endpoint && Unopened(c, b + [x], k1)
    ensures !Open(c, b + [x], |b| + 1, |b|)
  {
    var b' := b + [x];
    var m, n := |b| + 1, |b|;
    assert b'[n] == x;
    forall i, k
      ensures !Opens(c, b', i, k, m, n)
    {
      assert Pending(c, b', i, k) ==> k * c.frame < c.minSpeech;
    }
  }

  lemma WaitingBeat(c: Config, s: State, b: seq<Beat>)
    requires Continues(c, s, b) && s.phase == WaitingForSpeech
    ensures var b' := b + [BeatOf(c, s)];
            Linked(c, Step(c, s).0, b') && Called(c, b', |b|)
  {
    var x := BeatOf(c, s);
    var b' := b + [x];
    var next := Step(c, s).0;
    NotOpenYet(c, b, 0, x);
    assert 1 * c.frame == c.frame;
    if x.p >= c.onset {
      if c.frame >= c.minSpeech {
        Confirms(c, b, x, 1);
      } else {
        UnopenedGrows(c, b, 0, x, 1);
        Unconfirmed(c, b, 0, x, 1);
        assert forall j | 0 <= j < |b| :: b'[j] == b[j];
        assert Pending(c, b', |b|, 1);
        assert CandidateRun(c, next, b', 1);
      }
    } else {
      UnopenedGrows(c, b, 0, x, 0);
      Unconfirmed(c, b, 0, x, 0);
    }
  }

  lemma CandidateBeat(c: Config, s: State, b: seq<Beat>)
    requires Continues(c, s, b) && s.phase == SpeechCandidate
    ensures var b' := b + [BeatOf(c, s)];
            Linked(c, Step(c, s).0, b') && Called(c, b', |b|)
  {
    var x := BeatOf(c, s);
    var b' := b + [x];
    var next := Step(c, s).0;
    var k :| CandidateRun(c, s, b, k);
    NotOpenYet(c, b, k, x);
    assert (k + 1) * c.frame == k * c.frame + c.frame;
    if x.p >= c.offset {
      if s.candidateSpeech + c.frame >= c.minSpeech {
        Confirms(c, b, x, k + 1);
      } else {
        UnopenedGrows(c, b, k, x, k + 1);
        Unconfirmed(c, b, k, x, k + 1);
        assert forall j | 0 <= j < |b| :: b'[j] == b[j];
        assert Pending(c, b', |b'| - (k + 1), k + 1);
        assert CandidateRun(c, next, b', k + 1);
      }
    } else {
      UnopenedGrows(c, b, k, x, 0);
      Unconfirmed(c, b, k, x, 0);
    }
  }

  /** A voiced frame of an utterance. */
  lemma VoicedBeat(c: Config, s: State, b: seq<Beat>)
    requires Continues(c, s, b) && (s.phase == InSpeech || s.phase == TrailingSilence)
    requires BeatOf(c, s).p >= c.offset
    ensures var b' := b + [BeatOf(c, s)];
            Linked(c, Step(c, s).0, b') && Called(c, b', |b|)
  {
    var x := BeatOf(c, s);
    var b' := b + [x];
    if s.phase == TrailingSilence {
      var q :| TrailingRun(c, s, b, q);
      OpenLoosens(c, b, |b| - q, |b|, |b|, |b|);
    }
    OpenExtends(c, b, x, |b|);
    OpenLoosens(c, b', |b|, |b| + 1, |b| + 1, |b| + 1);
    OpenLoosens(c, b', |b|, |b| + 1, |b| + 1, |b|);
    assert b'[|b|] == x;
    forall q
      ensures !SilenceCompletes(c, b', |b|, q)
    {
      TooShortToMatter(c, q);
    }
  }

  /** A silent frame of an utterance, the `q`-th in a row. */
  lemma SilentBeat(c: Config, s: State, b: seq<Beat>, q: int)
    requires Continues(c, s, b) && BeatOf(c, s).p < c.offset
    requires s.phase == InSpeech || s.phase == TrailingSilence
    requires 1 <= q <= |b| && b[|b| - q].p >= c.offset && SilentRun(c, b, |b|, q - 1)
    requires Open(c, b, |b| + 1 - q, |b|)
    requires s.phase == InSpeech ==> q == 1
    requires s.phase == TrailingSilence ==> (q - 1) * c.frame == |s.trailing|
    ensures var b' := b + [BeatOf(c, s)];
            Linked(c, Step(c, s).0, b') && Called(c, b', |b|)
  {
    var x := BeatOf(c, s);
    var b' := b + [x];
    var (next, d) := Step(c, s);
    assert forall j | 0 <= j < |b| :: b'[j] == b[j];
    assert q * c.frame == (q - 1) * c.frame + c.frame;
    assert SilentRun(c, b', |b| + 1, q);
    OpenGrows(c, b, x, |b| + 1 - q, |b|);
    if d.endpoint {
      assert SilenceCompletes(c, b', |b|, q);
      EndpointClears(c, b', 0);
    } else {
      assert q * c.frame < c.minSilence;
      assert b'[|b| - q].p >= c.offset;
      forall r
        ensures !SilenceCompletes(c, b', |b|, r)
      {
        if r <= q {
          TimesMonotone(r, q, c.frame);
        }
      }
      OpenExtends(c, b, x, |b| + 1 - q);
      assert TrailingRun(c, next, b', q);
    }
  }

  lemma BeatCalled(c: Config, s: State, b: seq<Beat>)
    requires Continues(c, s, b)
    ensures var b' := b + [BeatOf(c, s)];
            Linked(c, Step(c, s).0, b') && Called(c, b', |b|)
  {
    match s.phase
    case WaitingForSpeech => WaitingBeat(c, s, b);
    case SpeechCandidate => CandidateBeat(c, s, b);
    case InSpeech =>
      if BeatOf(c, s).p >= c.offset {
        VoicedBeat(c, s, b);
      } else {
        SilentBeat(c, s, b, 1);
      }
    case TrailingSilence =>
      if BeatOf(c, s).p >= c.offset {
        VoicedBeat(c, s, b);
      } else {
        var q :| TrailingRun(c, s, b, q);
        SilentBeat(c, s, b, q + 1);
      }
  }

  // ----- whole streams -------------------------------------------------------------------

  /** What is called for on a frame does not depend on later frames. */
  lemma CalledGrows(c: Config, b: seq<Beat>, x: Beat, i: int)
    requires 0 <= i < |b| && Called(c, b, i)
    ensures Called(c, b + [x], i)
  {
    var b' := b + [x];
    OpenGrows(c, b, x, i + 1, i);
    assert forall j | 0 <= j < |b| :: b'[j] == b[j];
    forall q
      ensures SilenceCompletes(c, b, i, q) <==> SilenceCompletes(c, b', i, q)
    {
      if 0 <= q {
        OpenGrows(c, b, x, i + 1 - q, i);
      }
    }
  }

  ghost predicate EveryCalled(c: Config, b: seq<Beat>) {
    forall i | 0 <= i < |b| :: Called(c, b, i)
  }

  lemma Append(past: seq<Beat>, x: Beat, rest: seq<Beat>)
    ensures past + [x] + rest == past + ([x] + rest)
  {
  }

  lemma CalledSnoc(c: Config, past: seq<Beat>, x: Beat)
    requires EveryCalled(c, past) && Called(c, past + [x], |past|)
    ensures EveryCalled(c, past + [x])
  {
    forall i | 0 <= i < |past| + 1
      ensures Called(c, past + [x], i)
    {
      if i < |past| {
        CalledGrows(c, past, x, i);
      }
    }
  }

  /** One frame more. */
  lemma NextBeat(c: Config, s: State, past: seq<Beat>) returns (t: State, x: Beat)
    requires Continues(c, s, past) && c.onset >= c.offset && EveryCalled(c, past)
    ensures Inv(c, t) && Linked(c, t, past + [x]) && EveryCalled(c, past + [x])
    ensures t == Step(c, s).0 && x == BeatOf(c, s) && |t.input| < |s.input| && Beats(c, s) == [x] + Beats(c, t)
  {
    t, x := Step(c, s).0, BeatOf(c, s);
    BeatCalled(c, s, past);
    StepTiles(c, s);
    StepKeepsInput(c, s);
    CalledSnoc(c, past, x);
  }

  lemma {:induction false} AllCalled(c: Config, s: State, past: seq<Beat>)
    requires Inv(c, s) && Linked(c, s, past) && c.onset >= c.offset
    requires EveryCalled(c, past)
    ensures EveryCalled(c, past + Beats(c, s))
    decreases |s.input|, if s.phase == Finalizing then 1 else 0
  {
    if s.phase == Finalizing {
      AllCalled(c, Rearm(s), past);
      assert Beats(c, s) == Beats(c, Rearm(s));
    } else if |s.input| < c.frame {
      assert past + [] == past;
    } else {
      var t, x := NextBeat(c, s, past);
      AllCalled(c, t, past + [x]);
      Append(past, x, Beats(c, t));
    }
  }

  /** Over any stream, every decision of the driven detector is the one the probabilities
      call for. */
  lemma HysteresisExact(c: Config, stream: Audio)
    requires c.onset >= c.offset
    ensures EveryCalled(c, Beats(c, Extend(INITIAL, stream)))
  {
    var s := Extend(INITIAL, stream);
    assert Unopened(c, [], 0);
    AllCalled(c, s, []);
    assert [] + Beats(c, s) == Beats(c, s);
  }

  /** Between two endpoints there is a confirmed run of speech followed by the silence. */
  lemma SpeechBetweenEndpoints(c: Config, stream: Audio, e: int, i: int) returns (run: int, k: int, q: int)
    requires c.onset >= c.offset
    requires 0 <= e < i < |Beats(c, Extend(INITIAL, stream))|
    requires var b := Beats(c, Extend(INITIAL, stream)); b[e].d.endpoint && b[i].d.endpoint
    ensures var b := Beats(c, Extend(INITIAL, stream));
            && e < run && run + k <= i + 1 - q
            && SpeechRun(c, b, run, k) && k * c.frame >= c.minSpeech
            && SilentRun(c, b, i + 1, q) && q * c.frame >= c.minSilence
  {
    HysteresisExact(c, stream);
    var b := Beats(c, Extend(INITIAL, stream));
    assert Called(c, b, i);
    q :| SilenceCompletes(c, b, i, q);
    run, k :| Opens(c, b, run, k, i + 1 - q, i);
  }
}
