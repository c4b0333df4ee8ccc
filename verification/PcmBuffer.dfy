/** The aligned PCM buffer of app/asr_gateway_chunking.py: absolute cursors and at most one
    reservation at the front. */
module PcmBuffer {
  import opened Pcm

  datatype Chunk = Chunk(start: nat, end: nat, pcm: Audio, final: bool)

  datatype Error =
    | Misaligned
    | PcmLimit(limit: nat, current: int, incoming: nat)
    | ReservationActive
    | OutsideRange
    | ReservationMismatch
    | SessionTerminal
    | StaleGeneration
    | DiscardExceedsPending
    | UnaccountedPcm

  datatype Buffer = Buffer(
    maxSamples: nat,
    data: Audio,
    base: nat,
    accepted: nat,
    acknowledged: nat,
    discarded: nat,
    reservation: Option<Chunk>)
  {
    function Reserved(): int {
      if reservation.Some? then reservation.value.end - reservation.value.start else 0
    }

    function Buffered(): int {
      |data| - Reserved()
    }

    /** The cursors agree with the contents, and a reservation is the front of the data. */
    predicate Inv() {
      && base == acknowledged + discarded
      && accepted == base + |data|
      && |data| <= maxSamples
      && (reservation.Some? ==>
            && reservation.value.start == base
            && base < reservation.value.end <= accepted
            && reservation.value.pcm == data[..reservation.value.end - base])
    }
  }

  function Fresh(maxSamples: nat): Buffer {
    Buffer(maxSamples, [], 0, 0, 0, 0, None)
  }

  function Append(b: Buffer, audio: Audio): Result<Buffer, Error> {
    if |b.data| + |audio| > b.maxSamples then
      Err(PcmLimit(b.maxSamples, |b.data|, |audio|))
    else
      Ok(b.(data := b.data + audio, accepted := b.accepted + |audio|))
  }

  function ReserveRange(b: Buffer, samples: int, final: bool): Result<Buffer, Error>
    requires b.Inv()
  {
    if b.reservation.Some? then
      Err(ReservationActive)
    else if samples <= 0 || samples > b.Buffered() then
      Err(OutsideRange)
    else
      Ok(b.(reservation := Some(Chunk(b.base, b.base + samples, b.data[..samples], final))))
  }

  predicate Matches(b: Buffer, start: int, end: int) {
    b.reservation.Some? && b.reservation.value.start == start && b.reservation.value.end == end
  }

  function Acknowledge(b: Buffer, start: int, end: int): Result<Buffer, Error>
    requires b.Inv()
  {
    if !Matches(b, start, end) then
      Err(ReservationMismatch)
    else
      Ok(b.(data := b.data[b.Reserved()..], base := b.reservation.value.end,
            acknowledged := b.acknowledged + b.Reserved(), reservation := None))
  }

  function Rollback(b: Buffer, start: int, end: int): Result<Buffer, Error> {
    if !Matches(b, start, end) then Err(ReservationMismatch) else Ok(b.(reservation := None))
  }

  function Discard(b: Buffer, samples: int): Result<Buffer, Error>
    requires b.Inv()
  {
    if b.reservation.Some? then
      Err(ReservationActive)
    else if samples < 0 || samples > b.Buffered() then
      Err(OutsideRange)
    else
      Ok(b.(data := b.data[samples..], base := b.base + samples, discarded := b.discarded + samples))
  }

  /** What is refused: audio that does not fit, a second reservation or a discard while there is
      one, more samples than there are, and any range but the one that is reserved. */
  lemma AcceptsExactly(b: Buffer, op: Op)
    requires b.Inv()
    ensures Perform(b, op).Ok? <==>
              match op
              case DoAppend(audio) => |b.data| + |audio| <= b.maxSamples
              case DoReserve(samples, _) => b.reservation == None && 0 < samples <= |b.data|
              case DoDiscard(samples) => b.reservation == None && 0 <= samples <= |b.data|
              case DoAcknowledge(start, end) => Reserves(b, start, end)
              case DoRollback(start, end) => Reserves(b, start, end)
  {
  }

  /** The oldest samples, from `start` to `end` in the stream, are held in reserve. */
  predicate Reserves(b: Buffer, start: int, end: int) {
    b.reservation.Some? && (b.reservation.value.start, b.reservation.value.end) == (start, end)
  }

  // ----- what was acknowledged is what was appended --------------------------------------

  /** One operation on a buffer; a refused one changes nothing. */
  datatype Op =
    | DoAppend(audio: Audio)
    | DoReserve(samples: int, final: bool)
    | DoAcknowledge(start: int, end: int)
    | DoRollback(start: int, end: int)
    | DoDiscard(samples: int)

  function Perform(b: Buffer, op: Op): Result<Buffer, Error>
    requires b.Inv()
  {
    match op
    case DoAppend(audio) => Append(b, audio)
    case DoReserve(samples, final) => ReserveRange(b, samples, final)
    case DoAcknowledge(start, end) => Acknowledge(b, start, end)
    case DoRollback(start, end) => Rollback(b, start, end)
    case DoDiscard(samples) => Discard(b, samples)
  }

  /** A stretch of the appended stream that has left the buffer. */
  datatype Region = Acked(chunk: Chunk) | Lost(start: nat, end: nat)

  function Start(r: Region): nat {
    if r.Acked? then r.chunk.start else r.start
  }

  function End(r: Region): nat {
    if r.Acked? then r.chunk.end else r.end
  }

  datatype History = History(stream: Audio, gone: seq<Region>)

  /** The regions leave the stream from its start, one after the other, without gap or
      overlap; an acknowledged chunk carries the samples its range names; what is still
      buffered is the rest of the stream. */
  ghost predicate Accounts(h: History, b: Buffer) {
    && |h.stream| == b.accepted
    && b.base <= b.accepted && h.stream[b.base..] == b.data
    && (h.gone == [] ==> b.base == 0)
    && (h.gone != [] ==> Start(h.gone[0]) == 0 && End(h.gone[|h.gone| - 1]) == b.base)
    && (forall i | 0 <= i < |h.gone| :: Start(h.gone[i]) <= End(h.gone[i]) <= b.base)
    && (forall i | 0 < i < |h.gone| :: Start(h.gone[i]) == End(h.gone[i - 1]))
    && (forall i | 0 <= i < |h.gone| && h.gone[i].Acked? ::
          h.gone[i].chunk.pcm == h.stream[h.gone[i].chunk.start..h.gone[i].chunk.end])
  }

  function Extended(h: History, b: Buffer, op: Op): History
    requires b.Inv()
  {
    if Perform(b, op).Err? then h
    else
      match op
      case DoAppend(audio) => h.(stream := h.stream + audio)
      case DoAcknowledge(_, _) => h.(gone := h.gone + [Acked(b.reservation.value)])
      case DoDiscard(samples) => h.(gone := h.gone + [Lost(b.base, b.base + samples)])
      case _ => h
  }

  lemma AppendAccounts(h: History, b: Buffer, audio: Audio)
    requires b.Inv() && Accounts(h, b) && Append(b, audio).Ok?
    ensures Accounts(h.(stream := h.stream + audio), Append(b, audio).value)
  {
    var s := h.stream + audio;
    assert s[b.base..] == h.stream[b.base..] + audio;
    forall i | 0 <= i < |h.gone| && h.gone[i].Acked?
      ensures h.gone[i].chunk.pcm == s[h.gone[i].chunk.start..h.gone[i].chunk.end]
    {
      assert Start(h.gone[i]) <= End(h.gone[i]) <= b.base;
      assert s[h.gone[i].chunk.start..h.gone[i].chunk.end] == h.stream[h.gone[i].chunk.start..h.gone[i].chunk.end];
    }
  }

  /** Taking the front off, acknowledged or lost, adds the next region. */
  lemma RemovalAccounts(h: History, b: Buffer, after: Buffer, region: Region)
    requires b.Inv() && Accounts(h, b)
    requires Start(region) == b.base <= End(region) == after.base <= b.accepted
    requires after.accepted == b.accepted && after.data == b.data[after.base - b.base..]
    requires region.Acked? ==> region.chunk.pcm == b.data[..after.base - b.base]
    ensures Accounts(h.(gone := h.gone + [region]), after)
  {
    var gone := h.gone + [region];
    assert h.stream[after.base..] == after.data;
    if region.Acked? {
      assert region.chunk.pcm == h.stream[b.base..after.base];
    }
    forall i | 0 < i < |gone|
      ensures Start(gone[i]) == End(gone[i - 1])
    {
      if i == |h.gone| {
        assert End(h.gone[i - 1]) == b.base;
      }
    }
  }

  lemma AcknowledgeAccounts(h: History, b: Buffer, start: int, end: int)
    requires b.Inv() && Accounts(h, b) && Acknowledge(b, start, end).Ok?
    ensures Accounts(h.(gone := h.gone + [Acked(b.reservation.value)]), Acknowledge(b, start, end).value)
  {
    RemovalAccounts(h, b, Acknowledge(b, start, end).value, Acked(b.reservation.value));
  }

  lemma DiscardAccounts(h: History, b: Buffer, samples: int)
    requires b.Inv() && Accounts(h, b) && Discard(b, samples).Ok?
    ensures Accounts(h.(gone := h.gone + [Lost(b.base, b.base + samples)]), Discard(b, samples).value)
  {
    RemovalAccounts(h, b, Discard(b, samples).value, Lost(b.base, b.base + samples));
  }

  lemma HeldBackAccounts(h: History, b: Buffer, op: Op)
    requires b.Inv() && Accounts(h, b) && (op.DoReserve? || op.DoRollback?) && Perform(b, op).Ok?
    ensures Accounts(Extended(h, b, op), Perform(b, op).value)
  {
  }

  lemma OpAccounts(h: History, b: Buffer, op: Op)
    requires b.Inv() && Accounts(h, b)
    ensures Perform(b, op).Ok? ==> Perform(b, op).value.Inv()
    ensures Perform(b, op).Ok? ==> Accounts(Extended(h, b, op), Perform(b, op).value)
  {
    InvKept(b, op);
    if Perform(b, op).Ok? {
      if op.DoAppend? {
        AppendAccounts(h, b, op.audio);
      } else if op.DoAcknowledge? {
        AcknowledgeAccounts(h, b, op.start, op.end);
      } else if op.DoDiscard? {
        DiscardAccounts(h, b, op.samples);
      } else {
        HeldBackAccounts(h, b, op);
      }
    }
  }

  /** A buffer and its history after a sequence of operations. */
  function RunOf(maxSamples: nat, ops: seq<Op>): (r: (Buffer, History))
    ensures r.0.Inv()
  {
    if ops == [] then
      (Fresh(maxSamples), History([], []))
    else
      var (b, h) := RunOf(maxSamples, ops[..|ops| - 1]);
      var op := ops[|ops| - 1];
      var after := Perform(b, op);
      assert after.Ok? ==> after.value.Inv() by { InvKept(b, op); }
      (if after.Ok? then after.value else b, Extended(h, b, op))
  }

  lemma InvKept(b: Buffer, op: Op)
    requires b.Inv()
    ensures Perform(b, op).Ok? ==> Perform(b, op).value.Inv()
  {
    if op.DoAppend? && b.reservation.Some? {
      var n := b.Reserved();
      assert (b.data + op.audio)[..n] == b.data[..n];
    }
  }

  /** Through any appends, reservations, rollbacks, retries and discards, the chunks that
      left the buffer are consecutive stretches of the appended stream. */
  lemma {:induction false} RunAccounts(maxSamples: nat, ops: seq<Op>)
    ensures var (b, h) := RunOf(maxSamples, ops); Accounts(h, b)
  {
    if ops != [] {
      RunAccounts(maxSamples, ops[..|ops| - 1]);
      var (b, h) := RunOf(maxSamples, ops[..|ops| - 1]);
      OpAccounts(h, b, ops[|ops| - 1]);
    }
  }

  function AckedAudio(gone: seq<Region>): Audio {
    if gone == [] then []
    else AckedAudio(gone[..|gone| - 1]) + (if gone[|gone| - 1].Acked? then gone[|gone| - 1].chunk.pcm else [])
  }

  lemma {:induction false} AckedIsPrefix(h: History, b: Buffer, n: nat)
    requires Accounts(h, b) && n <= |h.gone|
    requires forall i | 0 <= i < n :: h.gone[i].Acked?
    ensures var cut := if n == 0 then 0 else End(h.gone[n - 1]);
            cut <= |h.stream| && AckedAudio(h.gone[..n]) == h.stream[..cut]
  {
    if n > 0 {
      AckedIsPrefix(h, b, n - 1);
      assert h.gone[..n][..n - 1] == h.gone[..n - 1];
      var chunk := h.gone[n - 1].chunk;
      assert Start(h.gone[n - 1]) <= End(h.gone[n - 1]) <= b.base;
      assert h.stream[..chunk.start] + h.stream[chunk.start..chunk.end] == h.stream[..chunk.end];
    }
  }

  /** When every region that left was acknowledged, the acknowledged audio and the buffer
      are the two halves of the stream. */
  lemma AckedThenBuffered(h: History, b: Buffer)
    requires b.Inv() && Accounts(h, b) && b.discarded == 0
    requires forall i | 0 <= i < |h.gone| :: h.gone[i].Acked?
    ensures b.acknowledged <= |h.stream|
    ensures AckedAudio(h.gone) == h.stream[..b.acknowledged]
    ensures h.stream[b.acknowledged..] == b.data
  {
    AckedIsPrefix(h, b, |h.gone|);
    assert h.gone[..|h.gone|] == h.gone;
  }

  /** Every region that left was acknowledged, but for one lost at the very end, after which
      nothing is buffered. */
  ghost predicate LostAtEnd(h: History, b: Buffer) {
    && b.data == [] && h.gone != []
    && (forall i | 0 <= i < |h.gone| - 1 :: h.gone[i].Acked?)
    && h.gone[|h.gone| - 1].Lost? && End(h.gone[|h.gone| - 1]) - Start(h.gone[|h.gone| - 1]) == b.discarded
  }

  /** Then the acknowledged audio is still a prefix of the stream. */
  lemma AckedThenLost(h: History, b: Buffer)
    requires b.Inv() && Accounts(h, b) && LostAtEnd(h, b)
    ensures b.acknowledged <= |h.stream|
    ensures AckedAudio(h.gone) == h.stream[..b.acknowledged]
  {
    var n := |h.gone| - 1;
    AckedIsPrefix(h, b, n);
    assert Start(h.gone[n]) == if n == 0 then 0 else End(h.gone[n - 1]);
  }

  /** As long as nothing is discarded, the acknowledged chunks concatenate to exactly the
      first `acknowledged` samples ever appended. */
  lemma AcknowledgedIsAppendedPrefix(maxSamples: nat, ops: seq<Op>)
    requires forall i | 0 <= i < |ops| :: !ops[i].DoDiscard?
    ensures var (b, h) := RunOf(maxSamples, ops);
            && b.acknowledged <= |h.stream|
            && AckedAudio(h.gone) == h.stream[..b.acknowledged]
  {
    RunAccounts(maxSamples, ops);
    var (b, h) := RunOf(maxSamples, ops);
    NoDiscardNoLoss(maxSamples, ops);
    AckedThenBuffered(h, b);
  }

  lemma {:induction false} NoDiscardNoLoss(maxSamples: nat, ops: seq<Op>)
    requires forall i | 0 <= i < |ops| :: !ops[i].DoDiscard?
    ensures var (b, h) := RunOf(maxSamples, ops);
            b.discarded == 0 && forall i | 0 <= i < |h.gone| :: h.gone[i].Acked?
  {
    if ops != [] {
      NoDiscardNoLoss(maxSamples, ops[..|ops| - 1]);
    }
  }

  // ---------------------------------------------------------------------------------------

  /** The buffer as the object a session owns. Every refused call changes nothing. */
  class PcmRingBuffer {
    const maxSamples: nat
    var data: Audio
    var base: nat
    var accepted: nat
    var acknowledged: nat
    var discarded: nat
    var reservation: Option<Chunk>

    ghost function View(): Buffer
      reads this
    {
      Buffer(maxSamples, data, base, accepted, acknowledged, discarded, reservation)
    }

    constructor (maxSamples: nat)
      requires maxSamples > 0
      ensures View() == Fresh(maxSamples) && this.maxSamples == maxSamples
    {
      this.maxSamples := maxSamples;
      data, base, accepted, acknowledged, discarded, reservation := [], 0, 0, 0, 0, None;
    }

    method AppendBytes(bytes: seq<Byte>) returns (r: Result<(nat, nat), Error>)
      modifies this
      ensures r.Err? ==> View() == old(View())
      ensures !Aligned(bytes) ==> r == Err(Misaligned)
      ensures Aligned(bytes) ==>
                match Append(old(View()), Decode(bytes))
                case Ok(after) => View() == after && r == Ok((old(accepted), accepted))
                case Err(e) => r == Err(e)
    {
      if !Aligned(bytes) {
        return Err(Misaligned);
      }
      var audio := Decode(bytes);
      if |data| + |audio| > maxSamples {
        return Err(PcmLimit(maxSamples, |data|, |audio|));
      }
      var start := accepted;
      data := data + audio;
      accepted := accepted + |audio|;
      return Ok((start, accepted));
    }

    method Reserve(samples: int, final: bool) returns (r: Result<Chunk, Error>)
      requires View().Inv()
      modifies this
      ensures r.Err? ==> View() == old(View())
      ensures match ReserveRange(old(View()), samples, final)
              case Ok(after) => View() == after && View().Inv() && r == Ok(reservation.value)
              case Err(e) => r == Err(e)
    {
      if reservation.Some? {
        return Err(ReservationActive);
      }
      if samples <= 0 || samples > |data| {
        return Err(OutsideRange);
      }
      var chunk := Chunk(base, base + samples, data[..samples], final);
      reservation := Some(chunk);
      return Ok(chunk);
    }

    method Ack(start: int, end: int) returns (r: Result<Chunk, Error>)
      requires View().Inv()
      modifies this
      ensures r.Err? ==> View() == old(View())
      ensures match Acknowledge(old(View()), start, end)
              case Ok(after) => View() == after && View().Inv() && r == Ok(old(reservation.value))
              case Err(e) => r == Err(e)
    {
      if reservation.None? || reservation.value.start != start || reservation.value.end != end {
        return Err(ReservationMismatch);
      }
      var chunk := reservation.value;
      var samples := chunk.end - chunk.start;
      data := data[samples..];
      base := chunk.end;
      acknowledged := acknowledged + samples;
      reservation := None;
      return Ok(chunk);
    }

    method Undo(start: int, end: int) returns (r: Result<(), Error>)
      modifies this
      ensures r.Err? ==> View() == old(View())
      ensures match Rollback(old(View()), start, end)
              case Ok(after) => View() == after && r == Ok(())
              case Err(e) => r == Err(e)
    {
      if reservation.None? || reservation.value.start != start || reservation.value.end != end {
        return Err(ReservationMismatch);
      }
      reservation := None;
      return Ok(());
    }

    method Drop(samples: int) returns (r: Result<(), Error>)
      requires View().Inv()
      modifies this
      ensures r.Err? ==> View() == old(View())
      ensures match Discard(old(View()), samples)
              case Ok(after) => View() == after && View().Inv() && r == Ok(())
              case Err(e) => r == Err(e)
    {
      if reservation.Some? {
        return Err(ReservationActive);
      }
      if samples < 0 || samples > |data| {
        return Err(OutsideRange);
      }
      data := data[samples..];
      base := base + samples;
      discarded := discarded + samples;
      return Ok(());
    }
  }
}
