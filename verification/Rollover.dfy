/** A stateful streaming session of the Qwen model (app/asr.py): audio frames are cut into
    segments of exactly the maximum utterance length, however they are framed. */
module Rollover {
  import opened Pcm

  // ----- settings -----------------------------------------------------------------------

  const RATE := 16000

  datatype Settings = Settings(maxUtteranceSeconds: real, watchdogSeconds: real, maxFrameBytes: int)

  function FrameSeconds(c: Settings): real {
    c.maxFrameBytes as real / 32000.0
  }

  /** What the settings validator enforces. */
  predicate Validated(c: Settings) {
    && c.maxFrameBytes > 0 && c.maxFrameBytes % 2 == 0
    && c.maxUtteranceSeconds > FrameSeconds(c)
    && c.watchdogSeconds > c.maxUtteranceSeconds + FrameSeconds(c)
  }

  /** Rounding to the nearest integer, halves to the even one. */
  function Round(x: real): (r: int)
    ensures x - 0.5 <= r as real <= x + 0.5
    ensures r as real == x - 0.5 || r as real == x + 0.5 ==> r % 2 == 0
  {
    var low := x.Floor;
    var part := x - low as real;
    if part < 0.5 then low else if part > 0.5 then low + 1 else if low % 2 == 0 then low else low + 1
  }

  function MaxSamples(c: Settings): int {
    Round(c.maxUtteranceSeconds * 16000.0)
  }

  function WatchdogSamples(c: Settings): int {
    Round(c.watchdogSeconds * 16000.0)
  }

  /** Rounding cannot undo a strict inequality with a whole number of samples in it. */
  lemma RoundKeepsStrict(x: real, y: real, n: int)
    requires x + n as real < y
    ensures Round(x) + n <= Round(y)
  {
    var low := y.Floor;
    if y - low as real < 0.5 {
      assert (Round(x) + n) as real <= x + 0.5 + n as real < low as real + 1.0;
    } else {
      assert (Round(x) + n) as real <= x + 0.5 + n as real < y + 0.5;
      if y - low as real == 0.5 {
        assert (Round(x) + n) as real < low as real + 1.0;
      } else {
        assert (Round(x) + n) as real < low as real + 2.0;
      }
    }
  }

  /** Under validated settings a segment holds at least one sample, and a full segment and
      the longest frame together stay within the watchdog's limit. */
  lemma WatchdogLeavesRoom(c: Settings)
    requires Validated(c)
    ensures MaxSamples(c) >= 1
    ensures MaxSamples(c) + c.maxFrameBytes / 2 <= WatchdogSamples(c)
  {
    var frame := c.maxFrameBytes / 2;
    assert c.maxFrameBytes as real == 2.0 * frame as real;
    assert FrameSeconds(c) * 16000.0 == frame as real;
    assert c.maxUtteranceSeconds * 16000.0 > frame as real;
    assert c.maxUtteranceSeconds * 16000.0 + frame as real < c.watchdogSeconds * 16000.0;
    RoundKeepsStrict(c.maxUtteranceSeconds * 16000.0, c.watchdogSeconds * 16000.0, frame);
  }

  // ----- the model ----------------------------------------------------------------------

  datatype ModelState = ModelState(text: string, chunkId: int, chunkSamples: nat)

  /** The streaming calls of the model, as functions of its state. */
  datatype Model = Model(init: ModelState, stream: (Audio, ModelState) -> ModelState, finish: ModelState -> ModelState)

  datatype Update = Update(segmentId: nat, text: string, decoded: nat, updated: bool, finished: bool)

  datatype Error = Closed | WrongRate | FrameTooLarge | Watchdog | NoResults

  /** An open session: its segment, the samples that segment has received and those of them
      not reported decoded, and the model's state. */
  datatype Live = Live(segmentId: nat, received: nat, undecoded: nat, state: ModelState)

  function Fresh(m: Model, id: nat): Live {
    Live(id, 0, 0, m.init)
  }

  predicate Changes(before: ModelState, after: ModelState) {
    after.chunkId > before.chunkId || after.text != before.text
  }

  /** The samples in the chunks that the model has moved on by. */
  function ChunkSamples(before: ModelState, after: ModelState): nat {
    if after.chunkId > before.chunkId then Times(after.chunkId - before.chunkId, after.chunkSamples) else 0
  }

  function Times(a: nat, b: nat): nat {
    assert a * b >= 0;
    a * b
  }

  /** Of the samples pending, those in the chunks the model has moved on by. */
  function Progress(before: ModelState, after: ModelState, pending: nat): nat {
    Min(pending, ChunkSamples(before, after))
  }

  /** The model hears a piece: samples decoded, and whether anything changed. */
  function Streamed(m: Model, l: Live, piece: Audio): (Live, nat, bool) {
    var after, pending := m.stream(piece, l.state), l.undecoded + |piece|;
    var got := Progress(l.state, after, pending);
    (Live(l.segmentId, l.received + |piece|, pending - got, after), got, Changes(l.state, after))
  }

  /** The model finishes the segment; everything pending counts as decoded if that changed
      anything. */
  function Finished(m: Model, l: Live): (Live, nat, bool) {
    var after := m.finish(l.state);
    var got := if Changes(l.state, after) then l.undecoded else 0;
    (l.(undecoded := l.undecoded - got, state := after), got, Changes(l.state, after))
  }

  /** One piece, which fills the segment or is the end of the frame. */
  function Turn(m: Model, max: int, l: Live, piece: Audio): (r: (Live, Update))
    requires l.received + |piece| <= max && 0 < max
    ensures r.0.received < max
  {
    var (s, got, changed) := Streamed(m, l, piece);
    if s.received == max then
      var (f, more, again) := Finished(m, s);
      (Fresh(m, l.segmentId + 1), Update(l.segmentId, f.state.text, got + more, changed || again, true))
    else
      (s, Update(l.segmentId, s.state.text, got, changed, false))
  }

  /** A frame, cut wherever a segment is full. */
  function CutAll(m: Model, max: int, l: Live, pcm: Audio): (r: (Live, seq<Update>))
    requires l.received < max
    ensures r.0.received < max
    decreases |pcm|
  {
    if pcm == [] then (l, [])
    else
      var size := Min(|pcm|, max - l.received);
      var turn := Turn(m, max, l, pcm[..size]);
      After([turn.1], CutAll(m, max, turn.0, pcm[size..]))
  }

  /** What follows an outcome's updates. */
  function After(done: seq<Update>, rest: (Live, seq<Update>)): (Live, seq<Update>) {
    (rest.0, done + rest.1)
  }

  /** A frame in bytes; one without any asks how things stand. */
  function FrameAll(m: Model, max: int, l: Live, bytes: seq<Byte>): (r: (Live, seq<Update>))
    requires l.received < max
    ensures r.0.received < max
  {
    if bytes == [] then (l, [Update(l.segmentId, l.state.text, 0, false, false)])
    else CutAll(m, max, l, Decode(bytes[..|bytes| / 2 * 2]))
  }

  function StreamAll(m: Model, max: int, frames: seq<seq<Byte>>): (r: (Live, seq<Update>))
    requires 0 < max
    ensures r.0.received < max
  {
    if frames == [] then (Fresh(m, 0), [])
    else
      var (l, before) := StreamAll(m, max, frames[..|frames| - 1]);
      var (next, more) := FrameAll(m, max, l, frames[|frames| - 1]);
      (next, before + more)
  }

  // ----- arithmetic ---------------------------------------------------------------------

  lemma MulMono(d: int, m: int)
    requires m > 0
    ensures d >= 1 ==> d * m >= m
    ensures d <= -1 ==> d * m <= -m
  {
    if d >= 1 {
      assert (d - 1) * m >= 0;
    } else if d <= -1 {
      assert (-d - 1) * m >= 0;
    }
  }

  lemma DivModIs(x: nat, k: nat, r: nat, m: int)
    requires 0 <= r < m && x == k * m + r
    ensures x / m == k && x % m == r
  {
    var q := x / m;
    assert x == q * m + x % m;
    assert (q - k) * m == r - x % m;
    MulMono(q - k, m);
  }

  /** `k` full segments of `m` samples. */
  function Full(k: nat, m: int): (r: int)
    ensures m >= 0 ==> r >= 0
  {
    if k == 0 then 0 else Full(k - 1, m) + m
  }

  lemma {:induction false} FullIsProduct(k: nat, m: int)
    ensures Full(k, m) == k * m
    decreases k
  {
    if k > 0 {
      FullIsProduct(k - 1, m);
    }
  }

  // ----- the session --------------------------------------------------------------------

  class StreamingSession {
    const maxFrameBytes: int
    const maxSamples: int
    const watchdogSamples: int
    const model: Model
    var closed: bool
    var segmentId: nat
    var received: nat
    var undecoded: nat
    var state: ModelState

    ghost function View(): Live
      reads this
    {
      Live(segmentId, received, undecoded, state)
    }

    ghost predicate Valid()
      reads this
    {
      0 < maxSamples && maxSamples + maxFrameBytes / 2 <= watchdogSamples && received < maxSamples
    }

    constructor (settings: Settings, model: Model)
      requires Validated(settings)
      ensures Valid() && !closed && View() == Fresh(model, 0)
      ensures maxFrameBytes == settings.maxFrameBytes && this.model == model
      ensures maxSamples == MaxSamples(settings) && watchdogSamples == WatchdogSamples(settings)
    {
      WatchdogLeavesRoom(settings);
      maxFrameBytes, maxSamples, watchdogSamples := settings.maxFrameBytes, MaxSamples(settings), WatchdogSamples(settings);
      this.model := model;
      closed, segmentId, received, undecoded, state := false, 0, 0, 0, model.init;
    }

    /** Feeds one piece to the model and reports how much of the segment it has decoded. */
    method StreamPiece(piece: Audio) returns (decoded: nat, updated: bool)
      modifies this`received, this`undecoded, this`state
      ensures (View(), decoded, updated) == Streamed(model, old(View()), piece)
    {
      var before := state;
      received := received + |piece|;
      undecoded := undecoded + |piece|;
      state := model.stream(piece, state);
      var chunks: nat := Max(0, state.chunkId - before.chunkId);
      assert chunks * state.chunkSamples >= 0;
      decoded := Min(undecoded, chunks * state.chunkSamples);
      undecoded := undecoded - decoded;
      updated := chunks > 0 || state.text != before.text;
    }

    /** Lets the model finish the segment. */
    method FinishActive() returns (decoded: nat, updated: bool)
      modifies this`undecoded, this`state
      ensures (View(), decoded, updated) == Finished(model, old(View()))
    {
      var before := state;
      state := model.finish(state);
      updated := state.chunkId > before.chunkId || state.text != before.text;
      decoded := if updated then undecoded else 0;
      undecoded := undecoded - decoded;
    }

    method StartFresh()
      modifies this`segmentId, this`received, this`undecoded, this`state
      ensures View() == Fresh(model, old(segmentId) + 1)
    {
      segmentId := segmentId + 1;
      state := model.init;
      received, undecoded := 0, 0;
    }

    /** One piece, which fills the segment or is the end of the frame. */
    method Step(piece: Audio) returns (update: Update)
      requires Valid() && |piece| <= maxSamples - received
      modifies this`segmentId, this`received, this`undecoded, this`state
      ensures Valid() && (View(), update) == Turn(model, maxSamples, old(View()), piece)
    {
      var decoded, updated := StreamPiece(piece);
      if received == maxSamples {
        var flushed, flushUpdated := FinishActive();
        update := Update(segmentId, state.text, decoded + flushed, updated || flushUpdated, true);
        StartFresh();
      } else {
        update := Update(segmentId, state.text, decoded, updated, false);
      }
    }

    /** The next piece of a frame: what is left of it, or what the segment has room for. */
    method CutOne(rest: Audio, ghost done: seq<Update>, ghost whole: (Live, seq<Update>)) returns (size: nat, update: Update)
      requires Valid() && rest != [] && whole == After(done, CutAll(model, maxSamples, View(), rest))
      modifies this`segmentId, this`received, this`undecoded, this`state
      ensures Valid() && 0 < size <= |rest|
      ensures whole == After(done + [update], CutAll(model, maxSamples, View(), rest[size..]))
    {
      size := Min(|rest|, maxSamples - received);
      update := Step(rest[..size]);
      AfterTwice(done, [update], CutAll(model, maxSamples, View(), rest[size..]));
    }

    /** The loop that cuts a frame at segment ends. */
    method Cut(pcm: Audio) returns (updates: seq<Update>)
      requires Valid()
      modifies this`segmentId, this`received, this`undecoded, this`state
      ensures Valid() && (View(), updates) == CutAll(model, maxSamples, old(View()), pcm)
    {
      updates := [];
      var rest := pcm;
      ghost var whole := CutAll(model, maxSamples, View(), pcm);
      NothingBefore(whole);
      while rest != []
        invariant Valid() && whole == After(updates, CutAll(model, maxSamples, View(), rest))
        decreases |rest|
      {
        var size, update := CutOne(rest, updates, whole);
        updates := updates + [update];
        rest := rest[size..];
      }
      NothingAfter(updates, View());
    }

    /** Why a frame is refused, in the order of the checks. */
    function Refusal(bytes: seq<Byte>, sampleRate: int): Option<Error>
      reads this
    {
      if closed then Some(Closed)
      else if sampleRate != RATE then Some(WrongRate)
      else if |bytes| > maxFrameBytes then Some(FrameTooLarge)
      else if |bytes| == 1 then Some(NoResults)
      else None
    }

    /** One frame. The watchdog's error is never the answer. */
    method AddPcm(bytes: seq<Byte>, sampleRate: int) returns (r: Result<seq<Update>, Error>)
      requires Valid()
      modifies this`segmentId, this`received, this`undecoded, this`state
      ensures Valid()
      ensures match old(Refusal(bytes, sampleRate))
              case Some(e) => r == Err(e) && View() == old(View())
              case None => r.Ok? && (View(), r.value) == FrameAll(model, maxSamples, old(View()), bytes)
    {
      if closed {
        return Err(Closed);
      }
      if sampleRate != RATE {
        return Err(WrongRate);
      }
      if |bytes| > maxFrameBytes {
        return Err(FrameTooLarge);
      }
      if bytes == [] {
        return Ok([Update(segmentId, state.text, 0, false, false)]);
      }
      var samples := |bytes| / 2;
      if received + samples > watchdogSamples {
        return Err(Watchdog);
      }
      if samples == 0 {
        return Err(NoResults);
      }
      var updates := Cut(Decode(bytes[..samples * 2]));
      return Ok(updates);
    }

    /** A whole stream of frames from a fresh session. */
    method AddStream(frames: seq<seq<Byte>>) returns (updates: seq<Update>)
      requires Valid() && !closed && View() == Fresh(model, 0)
      requires forall i | 0 <= i < |frames| :: Aligned(frames[i]) && |frames[i]| <= maxFrameBytes
      modifies this`segmentId, this`received, this`undecoded, this`state
      ensures Valid() && (View(), updates) == StreamAll(model, maxSamples, frames)
    {
      updates := [];
      assert frames[..0] == [];
      for n := 0 to |frames|
        invariant Valid() && (View(), updates) == StreamAll(model, maxSamples, frames[..n])
      {
        assert frames[..n + 1][..n] == frames[..n];
        var r := AddPcm(frames[n], RATE);
        updates := updates + r.value;
      }
      assert frames[..|frames|] == frames;
    }

    /** Ends the current segment early. */
    method FinishSegment() returns (r: Result<Update, Error>)
      requires Valid()
      modifies this`segmentId, this`received, this`undecoded, this`state
      ensures Valid()
      ensures closed ==> r == Err(Closed) && View() == old(View())
      ensures !closed ==>
                var (f, got, changed) := Finished(model, old(View()));
                r == Ok(Update(old(segmentId), f.state.text, got, changed, true)) && View() == Fresh(model, old(segmentId) + 1)
    {
      if closed {
        return Err(Closed);
      }
      var decoded, updated := FinishActive();
      var update := Update(segmentId, state.text, decoded, updated, true);
      StartFresh();
      return Ok(update);
    }

    /** Ends the session with what the model makes of the current segment. */
    method FinishStream() returns (r: Result<Update, Error>)
      requires Valid()
      modifies this`undecoded, this`state, this`closed
      ensures Valid() && closed
      ensures old(closed) ==> r == Err(Closed) && View() == old(View())
      ensures !old(closed) ==>
                var (f, got, changed) := Finished(model, old(View()));
                r == Ok(Update(segmentId, f.state.text, got, changed, false)) && View() == f
    {
      if closed {
        return Err(Closed);
      }
      var decoded, updated := FinishActive();
      closed := true;
      return Ok(Update(segmentId, state.text, decoded, updated, false));
    }
  }

  lemma NothingBefore(rest: (Live, seq<Update>))
    ensures After([], rest) == rest
  {
    assert [] + rest.1 == rest.1;
  }

  lemma NothingAfter(done: seq<Update>, l: Live)
    ensures After(done, (l, [])) == (l, done)
  {
    assert done + [] == done;
  }

  lemma AfterTwice(a: seq<Update>, b: seq<Update>, rest: (Live, seq<Update>))
    ensures After(a, After(b, rest)) == After(a + b, rest)
  {
    assert a + (b + rest.1) == a + b + rest.1;
  }
}
