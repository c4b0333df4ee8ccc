/** What becomes of a stream in a stateful session (app/asr.py): its segments, what is said of
    each, and how much of it is reported decoded. */
module RolloverStream {
  import opened Pcm
  import opened Rollover

  // ----- one piece ----------------------------------------------------------------------

  /** What one piece is answered with: the text of the model's state after hearing it, and
      after finishing if the segment is full; decoded is what the model has moved on by, as far
      as it is pending, or everything pending if finishing changed something. */
  lemma TurnAnswers(m: Model, max: int, l: Live, piece: Audio)
    requires l.received + |piece| <= max && 0 < max
    ensures var (next, u) := Turn(m, max, l, piece);
            var heard := m.stream(piece, l.state);
            var last := m.finish(heard);
            && u.segmentId == l.segmentId
            && (u.finished <==> l.received + |piece| == max)
            && u.text == (if u.finished then last.text else heard.text)
            && (u.updated <==> Changes(l.state, heard) || (u.finished && Changes(heard, last)))
            && u.decoded == (if u.finished && Changes(heard, last) then l.undecoded + |piece|
                             else if heard.chunkId > l.state.chunkId
                             then Min(l.undecoded + |piece|, (heard.chunkId - l.state.chunkId) * heard.chunkSamples) else 0)
            && next == (if u.finished then Live(l.segmentId + 1, 0, 0, m.init)
                        else Live(l.segmentId, l.received + |piece|, l.undecoded + |piece| - u.decoded, heard))
  {
  }

  /** Finishing early is answered in the same way. */
  lemma FinishAnswers(m: Model, l: Live)
    ensures var (f, got, changed) := Finished(m, l);
            && f.state == m.finish(l.state) && (changed <==> Changes(l.state, m.finish(l.state)))
            && got == (if changed then l.undecoded else 0) && f.undecoded == l.undecoded - got
  {
  }

  // ----- segments -----------------------------------------------------------------------

  /** The model's state after a segment's pieces. */
  function Fold(m: Model, pieces: seq<Audio>): ModelState {
    if pieces == [] then m.init else m.stream(pieces[|pieces| - 1], Fold(m, pieces[..|pieces| - 1]))
  }

  /** What is said of a finished segment. */
  function Said(m: Model, pieces: seq<Audio>): string {
    m.finish(Fold(m, pieces)).text
  }

  /** The session is in the middle of a segment that was heard in these pieces. */
  ghost predicate Tracks(m: Model, l: Live, pieces: seq<Audio>) {
    l.state == Fold(m, pieces) && |Joined(pieces)| == l.received
  }

  lemma FoldSnoc(m: Model, pieces: seq<Audio>, piece: Audio)
    ensures Fold(m, pieces + [piece]) == m.stream(piece, Fold(m, pieces))
    ensures Joined(pieces + [piece]) == Joined(pieces) + piece
  {
    assert (pieces + [piece])[..|pieces|] == pieces;
    JoinedSnoc(pieces, piece);
  }

  /** The texts of the segments that updates report as finished. */
  function FinishedTexts(updates: seq<Update>): seq<string> {
    if updates == [] then []
    else (if updates[0].finished then [updates[0].text] else []) + FinishedTexts(updates[1..])
  }

  function Texts(m: Model, parts: seq<seq<Audio>>): seq<string> {
    if parts == [] then [] else [Said(m, parts[0])] + Texts(m, parts[1..])
  }

  /** The audio of segments one after the other. */
  function Flat(parts: seq<seq<Audio>>): Audio {
    if parts == [] then [] else Joined(parts[0]) + Flat(parts[1..])
  }

  /** Full segments, heard in `parts`, and then one that goes on, heard in `rest`. */
  ghost predicate Segments(m: Model, max: int, updates: seq<Update>, l: Live, parts: seq<seq<Audio>>, rest: seq<Audio>) {
    && Tracks(m, l, rest) && l.received < max
    && (forall i | 0 <= i < |parts| :: |Joined(parts[i])| == max)
    && FinishedTexts(updates) == Texts(m, parts)
    && (updates != [] && !updates[|updates| - 1].finished ==> updates[|updates| - 1].text == l.state.text)
  }

  lemma TurnTracks(m: Model, max: int, l: Live, pieces: seq<Audio>, piece: Audio)
    requires Tracks(m, l, pieces) && l.received + |piece| <= max && 0 < max
    ensures var (next, u) := Turn(m, max, l, piece); var all := pieces + [piece];
            && Joined(all) == Joined(pieces) + piece
            && if u.finished then |Joined(all)| == max && u.text == Said(m, all) && Tracks(m, next, [])
               else Tracks(m, next, all) && u.text == next.state.text
  {
    FoldSnoc(m, pieces, piece);
    TurnAnswers(m, max, l, piece);
  }

  /** One frame: the segments it fills begin with what was open before, and all of it is in
      them and in the one that is open afterwards. */
  lemma {:induction false} CutSegments(m: Model, max: int, l: Live, pieces: seq<Audio>, pcm: Audio)
    returns (parts: seq<seq<Audio>>, rest: seq<Audio>)
    requires Tracks(m, l, pieces) && l.received < max
    ensures var (next, updates) := CutAll(m, max, l, pcm);
            && Segments(m, max, updates, next, parts, rest)
            && Flat(parts) + Joined(rest) == Joined(pieces) + pcm
            && next.segmentId == l.segmentId + |parts|
    decreases |pcm|
  {
    if pcm == [] {
      parts, rest := [], pieces;
      assert [] + Joined(pieces) == Joined(pieces) + [];
    } else {
      var size := Min(|pcm|, max - l.received);
      var (next, u) := Turn(m, max, l, pcm[..size]);
      TurnTracks(m, max, l, pieces, pcm[..size]);
      TurnAnswers(m, max, l, pcm[..size]);
      var all := pieces + [pcm[..size]];
      parts, rest := CutSegments(m, max, next, if u.finished then [] else all, pcm[size..]);
      var (last, more) := CutAll(m, max, next, pcm[size..]);
      MoreSegments(m, max, u, more, last, parts, rest, all, next);
      FlatMore(parts, rest, all, pieces, pcm, size, u.finished);
      parts := if u.finished then [all] + parts else parts;
    }
  }

  lemma MoreSegments(m: Model, max: int, u: Update, more: seq<Update>, last: Live, parts: seq<seq<Audio>>, rest: seq<Audio>,
                     all: seq<Audio>, next: Live)
    requires Segments(m, max, more, last, parts, rest)
    requires u.finished ==> |Joined(all)| == max && u.text == Said(m, all)
    requires !u.finished ==> u.text == next.state.text && (more == [] ==> last == next)
    ensures Segments(m, max, [u] + more, last, if u.finished then [all] + parts else parts, rest)
  {
    assert ([u] + more)[1..] == more;
    assert ([all] + parts)[1..] == parts;
    assert more != [] ==> ([u] + more)[|more|] == more[|more| - 1];
  }

  lemma FlatMore(parts: seq<seq<Audio>>, rest: seq<Audio>, all: seq<Audio>, pieces: seq<Audio>, pcm: Audio, size: nat, fills: bool)
    requires size <= |pcm| && Joined(all) == Joined(pieces) + pcm[..size]
    requires Flat(parts) + Joined(rest) == Joined(if fills then [] else all) + pcm[size..]
    ensures Flat(if fills then [all] + parts else parts) + Joined(rest) == Joined(pieces) + pcm
  {
    assert pcm[..size] + pcm[size..] == pcm;
    Regroup(Joined(pieces), pcm[..size], pcm[size..]);
    if fills {
      assert ([all] + parts)[1..] == parts;
      assert [] + pcm[size..] == pcm[size..];
      Regroup(Joined(all), Flat(parts), Joined(rest));
    }
  }

  lemma Regroup(a: Audio, b: Audio, c: Audio)
    ensures a + b + c == a + (b + c)
  {
  }

  // ----- numbers ------------------------------------------------------------------------

  function Decoded(updates: seq<Update>): nat {
    if updates == [] then 0 else updates[0].decoded + Decoded(updates[1..])
  }

  /** Updates of consecutive segments, all but the last of them finished. */
  ghost predicate Consecutive(updates: seq<Update>, first: nat) {
    && (forall i | 0 <= i < |updates| :: updates[i].segmentId == first + i)
    && (forall i | 0 <= i < |updates| - 1 :: updates[i].finished)
  }

  lemma {:induction false} CutNumbers(m: Model, max: int, l: Live, pcm: Audio)
    requires l.received < max
    ensures Numbers(l, CutAll(m, max, l, pcm), |pcm|)
    decreases |pcm|
  {
    if pcm != [] {
      var size := Min(|pcm|, max - l.received);
      var turn := Turn(m, max, l, pcm[..size]);
      TurnNumbers(m, max, l, pcm[..size]);
      CutNumbers(m, max, turn.0, pcm[size..]);
      NumbersMore(l, turn, CutAll(m, max, turn.0, pcm[size..]), size, |pcm[size..]|);
    }
  }

  /** What `samples` more samples of a frame are answered with. */
  ghost predicate Numbers(l: Live, r: (Live, seq<Update>), samples: nat) {
    && (samples > 0 ==> r.1 != [])
    && Consecutive(r.1, l.segmentId)
    && Decoded(r.1) + r.0.undecoded <= l.undecoded + samples
  }

  lemma NumbersMore(l: Live, turn: (Live, Update), rest: (Live, seq<Update>), size: nat, more: nat)
    requires turn.1.segmentId == l.segmentId && turn.1.decoded + turn.0.undecoded <= l.undecoded + size
    requires turn.1.finished || (more == 0 && rest.1 == [])
    requires turn.1.finished ==> turn.0.segmentId == l.segmentId + 1
    requires Numbers(turn.0, rest, more)
    ensures Numbers(l, After([turn.1], rest), size + more)
  {
    OneMore(turn.1, rest.1, l.segmentId);
  }

  lemma TurnNumbers(m: Model, max: int, l: Live, piece: Audio)
    requires l.received + |piece| <= max && 0 < max
    ensures var turn := Turn(m, max, l, piece);
            && turn.1.segmentId == l.segmentId
            && turn.0.segmentId == (if turn.1.finished then l.segmentId + 1 else l.segmentId)
            && (turn.1.finished <==> l.received + |piece| == max)
            && turn.1.decoded + turn.0.undecoded <= l.undecoded + |piece|
  {
    TurnAnswers(m, max, l, piece);
  }

  lemma OneMore(u: Update, more: seq<Update>, first: nat)
    requires u.segmentId == first && (u.finished || more == []) && Consecutive(more, first + 1)
    ensures Consecutive([u] + more, first) && Decoded([u] + more) == u.decoded + Decoded(more)
  {
    assert ([u] + more)[1..] == more;
  }

  /** Samples received in all. */
  function Heard(max: int, l: Live): int {
    Full(l.segmentId, max) + l.received
  }

  lemma {:induction false} CutHears(m: Model, max: int, l: Live, pcm: Audio)
    requires l.received < max
    ensures Heard(max, CutAll(m, max, l, pcm).0) == Heard(max, l) + |pcm|
    decreases |pcm|
  {
    if pcm != [] {
      var size := Min(|pcm|, max - l.received);
      TurnAnswers(m, max, l, pcm[..size]);
      CutHears(m, max, Turn(m, max, l, pcm[..size]).0, pcm[size..]);
    }
  }

  // ----- whole streams ------------------------------------------------------------------

  lemma {:induction false} FinishedTextsConcat(a: seq<Update>, b: seq<Update>)
    ensures FinishedTexts(a + b) == FinishedTexts(a) + FinishedTexts(b)
  {
    if a == [] {
      assert a + b == b;
    } else {
      assert (a + b)[1..] == a[1..] + b;
      FinishedTextsConcat(a[1..], b);
      OneThenRest(if a[0].finished then [a[0].text] else [], FinishedTexts(a[1..]), FinishedTexts(b));
    }
  }

  lemma OneThenRest(first: seq<string>, a: seq<string>, b: seq<string>)
    ensures first + (a + b) == first + a + b
  {
  }

  lemma {:induction false} DecodedConcat(a: seq<Update>, b: seq<Update>)
    ensures Decoded(a + b) == Decoded(a) + Decoded(b)
  {
    if a == [] {
      assert a + b == b;
    } else {
      assert (a + b)[1..] == a[1..] + b;
      DecodedConcat(a[1..], b);
    }
  }

  lemma {:induction false} PartsConcat(m: Model, a: seq<seq<Audio>>, b: seq<seq<Audio>>)
    ensures Texts(m, a + b) == Texts(m, a) + Texts(m, b) && Flat(a + b) == Flat(a) + Flat(b)
  {
    if a == [] {
      assert a + b == b;
    } else {
      assert (a + b)[1..] == a[1..] + b;
      PartsConcat(m, a[1..], b);
      Regroup(Joined(a[0]), Flat(a[1..]), Flat(b));
    }
  }

  lemma FrameSegments(m: Model, max: int, l: Live, pieces: seq<Audio>, bytes: seq<Byte>)
    returns (parts: seq<seq<Audio>>, rest: seq<Audio>)
    requires Tracks(m, l, pieces) && l.received < max && Aligned(bytes)
    ensures var (next, updates) := FrameAll(m, max, l, bytes);
            && Segments(m, max, updates, next, parts, rest) && updates != []
            && Flat(parts) + Joined(rest) == Joined(pieces) + Decode(bytes)
            && Decoded(updates) + next.undecoded <= l.undecoded + |bytes| / 2
            && Heard(max, next) == Heard(max, l) + |bytes| / 2
  {
    assert bytes[..|bytes| / 2 * 2] == bytes;
    if bytes == [] {
      parts, rest := [], pieces;
      assert Decode(bytes) == [] && [] + Joined(pieces) == Joined(pieces) + [];
      var u := FrameAll(m, max, l, bytes).1[0];
      assert [u][1..] == [];
    } else {
      parts, rest := CutSegments(m, max, l, pieces, Decode(bytes));
      CutNumbers(m, max, l, Decode(bytes));
      CutHears(m, max, l, Decode(bytes));
    }
  }

  /** What has been heard of a stream is full segments and the one still open; what is said of
      the full ones is, in order, what the model says of their audio; the last update says what
      the model says now. */
  lemma {:induction false} StreamSegments(m: Model, max: int, frames: seq<seq<Byte>>)
    returns (parts: seq<seq<Audio>>, rest: seq<Audio>)
    requires 0 < max && forall i | 0 <= i < |frames| :: Aligned(frames[i])
    ensures Aligned(Joined(frames))
    ensures var (l, updates) := StreamAll(m, max, frames);
            && Segments(m, max, updates, l, parts, rest)
            && Flat(parts) + Joined(rest) == Decode(Joined(frames))
            && Decoded(updates) + l.undecoded <= |Joined(frames)| / 2
            && Heard(max, l) == |Joined(frames)| / 2
    decreases |frames|
  {
    if frames == [] {
      parts, rest := [], [];
    } else {
      var front, last := frames[..|frames| - 1], frames[|frames| - 1];
      var before, open := StreamSegments(m, max, front);
      var (l, updates) := StreamAll(m, max, front);
      var more: seq<seq<Audio>>;
      more, rest := FrameSegments(m, max, l, open, last);
      DecodeConcat(Joined(front), last);
      DecodedConcat(updates, FrameAll(m, max, l, last).1);
      PartsConcat(m, before, more);
      Regroup(Flat(before), Joined(open), Decode(last));
      Regroup(Flat(before), Flat(more), Joined(rest));
      parts := before + more;
      StreamMore(m, max, updates, FrameAll(m, max, l, last).1, l, FrameAll(m, max, l, last).0, before, open, more, rest);
    }
  }

  lemma StreamMore(m: Model, max: int, a: seq<Update>, b: seq<Update>, l: Live, next: Live, before: seq<seq<Audio>>, open: seq<Audio>,
                   more: seq<seq<Audio>>, rest: seq<Audio>)
    requires Segments(m, max, a, l, before, open) && Segments(m, max, b, next, more, rest) && b != []
    ensures Segments(m, max, a + b, next, before + more, rest)
  {
    FinishedTextsConcat(a, b);
    PartsConcat(m, before, more);
  }

  /** However it is framed, the segment number and how full the segment is are quotient and
      remainder of the stream's length by the maximum. */
  lemma PositionIsLength(m: Model, max: int, frames: seq<seq<Byte>>)
    requires 0 < max && forall i | 0 <= i < |frames| :: Aligned(frames[i])
    ensures var l := StreamAll(m, max, frames).0; var samples := |Joined(frames)| / 2;
            l.segmentId == samples / max && l.received == samples % max
  {
    var parts, rest := StreamSegments(m, max, frames);
    var l := StreamAll(m, max, frames).0;
    FullIsProduct(l.segmentId, max);
    DivModIs(|Joined(frames)| / 2, l.segmentId, l.received, max);
  }
}
