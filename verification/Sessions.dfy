/** The gateway session of app/asr_gateway_sessions.py: sample accounting around one PCM
    buffer, one reservation at a time, and a generation that an abort moves on. */
module Sessions {
  import opened Pcm
  import B = PcmBuffer

  datatype Terminal = Open | Finishing | Succeeded | Failed | Aborted

  datatype Reservation = Reservation(sequence: nat, generation: nat, chunk: B.Chunk)

  datatype Session = Session(
    buffer: B.Buffer,
    generation: nat,
    terminal: Terminal,
    nextSequence: nat,
    reservation: Option<Reservation>,
    finishRequested: bool,
    accepted: nat,
    externalDiscarded: nat)
  {
    predicate InFlight() {
      reservation.Some?
    }

    predicate Live() {
      terminal == Open || terminal == Finishing
    }

    function Discarded(): nat {
      buffer.discarded + externalDiscarded
    }

    /** Samples accepted that have neither reached the buffer nor been reported dropped. */
    function Unsettled(): int {
      accepted - buffer.accepted - externalDiscarded
    }

    function PendingVad(): nat {
      Max(0, Unsettled())
    }

    /** What the session counts as held: buffered, reserved and inside the detector. */
    function HeldCount(): int {
      buffer.Buffered() + buffer.Reserved() + PendingVad()
    }

    /** The session's reservation is the buffer's, of this generation; an ended session
        holds no audio. */
    predicate Inv() {
      && buffer.Inv()
      && (reservation.Some? <==> buffer.reservation.Some?)
      && (reservation.Some? ==>
            && reservation.value.chunk == buffer.reservation.value
            && reservation.value.generation == generation
            && reservation.value.sequence < nextSequence)
      && (terminal == Failed || terminal == Aborted ==> buffer.data == [])
    }
  }

  function Fresh(maxSamples: nat): Session {
    Session(B.Fresh(maxSamples), 1, Open, 1, None, false, 0, 0)
  }

  function AppendPcm(s: Session, audio: Audio, countAccepted: bool): Result<Session, B.Error> {
    if !s.Live() then
      Err(B.SessionTerminal)
    else
      match B.Append(s.buffer, audio)
      case Err(e) => Err(e)
      case Ok(b) => Ok(s.(buffer := b, accepted := if countAccepted then s.accepted + |audio| else s.accepted))
  }

  function AcceptVadInput(s: Session, audio: Audio): Result<Session, B.Error> {
    if s.HeldCount() + |audio| > s.buffer.maxSamples then
      Err(B.PcmLimit(s.buffer.maxSamples, s.HeldCount(), |audio|))
    else
      Ok(s.(accepted := s.accepted + |audio|))
  }

  function RecordDiscarded(s: Session, samples: int): Result<Session, B.Error> {
    if samples < 0 || samples > s.PendingVad() then
      Err(B.DiscardExceedsPending)
    else
      Ok(s.(externalDiscarded := s.externalDiscarded + samples))
  }

  /** How many samples the next job should take; a maximum of zero is no maximum. */
  function ReadySamples(s: Session, preferred: int, maximum: int, force: bool): int {
    if s.InFlight() then
      0
    else
      var available := s.buffer.Buffered();
      var cap := if maximum == 0 then available else maximum;
      if available >= cap && cap > 0 then cap
      else if available >= preferred && preferred > 0 then preferred
      else if force || s.finishRequested then available
      else 0
  }

  function Reserve(s: Session, samples: int, final: bool): Result<Session, B.Error>
    requires s.Inv()
  {
    if s.InFlight() then
      Err(B.ReservationActive)
    else
      match B.ReserveRange(s.buffer, samples, final)
      case Err(e) => Err(e)
      case Ok(b) =>
        Ok(s.(buffer := b, nextSequence := s.nextSequence + 1,
              reservation := Some(Reservation(s.nextSequence, s.generation, b.reservation.value))))
  }

  function Acknowledge(s: Session, sequence: int, generation: int): Result<Session, B.Error>
    requires s.Inv()
  {
    if generation != s.generation then
      Err(B.StaleGeneration)
    else if s.reservation.None? || s.reservation.value.sequence != sequence then
      Err(B.ReservationMismatch)
    else
      var chunk := s.reservation.value.chunk;
      Ok(s.(buffer := B.Acknowledge(s.buffer, chunk.start, chunk.end).value, reservation := None))
  }

  /** Gives the reserved samples back if the reservation is the one named. */
  function Rollback(s: Session, sequence: int): (Session, bool)
    requires s.Inv()
  {
    if s.reservation.None? || s.reservation.value.sequence != sequence then
      (s, false)
    else
      (s.(buffer := s.buffer.(reservation := None), reservation := None), true)
  }

  predicate MatchesReservation(s: Session, sequence: int, start: int, end: int) {
    && s.reservation.Some?
    && s.reservation.value.sequence == sequence
    && s.reservation.value.generation == s.generation
    && s.reservation.value.chunk.start == start
    && s.reservation.value.chunk.end == end
  }

  function RequestFinish(s: Session): Session {
    if s.finishRequested then s else s.(finishRequested := true, terminal := Finishing)
  }

  function Abort(s: Session): Session
    requires s.Inv()
  {
    if s.terminal == Aborted || s.terminal == Failed then
      s
    else
      var b := s.buffer.(reservation := None);
      s.(buffer := B.Discard(b, b.Buffered()).value,
         reservation := None,
         externalDiscarded := s.externalDiscarded + s.PendingVad(),
         generation := s.generation + 1,
         terminal := Aborted)
  }

  function Fail(s: Session): Session
    requires s.Inv()
  {
    Abort(s).(terminal := Failed)
  }

  function Succeed(s: Session): Result<Session, B.Error> {
    if s.buffer.Buffered() != 0 || s.buffer.Reserved() != 0 then Err(B.UnaccountedPcm) else Ok(s.(terminal := Succeeded))
  }

  // ----- what the operations keep --------------------------------------------------------

  /** Every accepted sample is in exactly one place. */
  lemma EverySampleHasOnePlace(s: Session)
    requires s.Inv() && s.Unsettled() >= 0
    ensures s.accepted == s.buffer.acknowledged + s.buffer.Reserved() + s.buffer.Buffered() + s.Discarded() + s.PendingVad()
    ensures s.buffer.Buffered() >= 0 && s.buffer.Reserved() >= 0
  {
  }

  lemma AppendKeeps(s: Session, audio: Audio, countAccepted: bool)
    requires s.Inv() && AppendPcm(s, audio, countAccepted).Ok?
    ensures AppendPcm(s, audio, countAccepted).value.Inv()
  {
    B.InvKept(s.buffer, B.DoAppend(audio));
  }

  lemma AbortSettles(s: Session)
    requires s.Inv() && s.Live() && s.Unsettled() >= 0
    ensures var after := Abort(s);
            && after.Inv() && after.reservation.None? && after.generation == s.generation + 1
            && after.accepted == after.buffer.acknowledged + after.Discarded()
            && after.buffer.acknowledged == s.buffer.acknowledged
  {
  }

  /** Whatever the scheduler asks for can be reserved, within the cap when there is one. */
  lemma ReadyCanBeReserved(s: Session, preferred: int, maximum: int, force: bool, final: bool)
    requires s.Inv()
    ensures var count := ReadySamples(s, preferred, maximum, force);
            && 0 <= count
            && (count > 0 ==> Reserve(s, count, final).Ok? && Reserve(s, count, final).value.Inv())
            && (maximum > 0 ==> count <= maximum)
            && (s.finishRequested && maximum >= 0 && !s.InFlight() && s.buffer.Buffered() > 0 ==> count > 0)
  {
  }

  /** Exactly when something is offered, and how much: a full maximum first, then a full
      preferred amount, and the rest only when it is asked for or the client has finished. */
  lemma ReadyExactly(s: Session, preferred: int, maximum: int, force: bool)
    requires s.Inv()
    ensures var count, n := ReadySamples(s, preferred, maximum, force), |s.buffer.data|;
            && (count > 0 <==>
                  && s.reservation.None? && n > 0
                  && (maximum == 0 || 0 < maximum <= n || 0 < preferred <= n || force || s.finishRequested))
            && (s.reservation.None? && 0 < maximum <= n ==> count == maximum)
            && (s.reservation.None? && maximum > n && 0 < preferred <= n ==> count == preferred)
            && (s.reservation.None? && (force || s.finishRequested) && maximum > n && !(0 < preferred <= n) ==> count == n)
  {
  }

  /** Who may acknowledge: the job of the current generation that holds the reservation, and
      nobody else; its samples leave the front of the buffer. */
  lemma AcknowledgedExactly(s: Session, sequence: int, generation: int)
    requires s.Inv()
    ensures var r := Acknowledge(s, sequence, generation);
            && (r.Ok? <==> generation == s.generation && s.reservation.Some? && s.reservation.value.sequence == sequence)
            && (r.Ok? ==>
                  && r.value.reservation.None? && r.value.generation == s.generation
                  && s.buffer.data == s.reservation.value.chunk.pcm + r.value.buffer.data
                  && r.value.buffer.acknowledged == s.buffer.acknowledged + |s.reservation.value.chunk.pcm|)
            && (r.Err? ==> r.error == if generation != s.generation then B.StaleGeneration else B.ReservationMismatch)
  {
  }

  /** Giving back works for the job that holds the reservation, and leaves the audio alone. */
  lemma RolledBackExactly(s: Session, sequence: int)
    requires s.Inv()
    ensures var (t, given) := Rollback(s, sequence);
            && (given <==> s.reservation.Some? && s.reservation.value.sequence == sequence)
            && t.buffer.data == s.buffer.data && t.buffer.acknowledged == s.buffer.acknowledged
            && (if given then t.reservation.None? && t.buffer.reservation.None? else t == s)
  {
  }

  /** A session can succeed exactly if it holds no audio; aborting and failing always end it. */
  lemma EndsExactly(s: Session)
    requires s.Inv()
    ensures Succeed(s).Ok? <==> s.buffer.data == []
    ensures Succeed(s).Ok? ==> Succeed(s).value == s.(terminal := Succeeded)
    ensures Abort(s).terminal == (if s.terminal == Failed then Failed else Aborted) && Fail(s).terminal == Failed
    ensures Abort(s).buffer.data == [] && Abort(s).reservation.None?
  {
  }

  /** The client finishes once: an open session is finishing from then on, and nothing else
      about it changes. */
  lemma FinishIsRequestedOnce(s: Session)
    requires s.terminal == Open && !s.finishRequested
    ensures var t := RequestFinish(s);
            && t.terminal == Finishing && t.finishRequested && t.Live() && RequestFinish(t) == t
            && t == s.(terminal := t.terminal, finishRequested := t.finishRequested)
  {
  }

  /** A maximum of zero does not hold anything back: the whole buffer is handed out. */
  lemma ZeroMaximumIsNoMaximum(s: Session, preferred: int, force: bool)
    requires s.Inv() && !s.InFlight() && s.buffer.Buffered() > 0
    ensures ReadySamples(s, preferred, 0, force) == s.buffer.Buffered() > 0
  {
  }

  /** A rollback undoes a reservation, except that its sequence number is used up. */
  lemma RollbackUndoesReserve(s: Session, samples: int, final: bool)
    requires s.Inv() && Reserve(s, samples, final).Ok?
    ensures var reserved := Reserve(s, samples, final).value;
            reserved.Inv() && Rollback(reserved, s.nextSequence) == (s.(nextSequence := s.nextSequence + 1), true)
  {
    assert s.buffer.(reservation := None) == s.buffer;
  }

  // ---------------------------------------------------------------------------------------

  /** The session as the object the gateway holds. */
  class GatewaySession {
    const buffer: B.PcmRingBuffer
    var generation: nat
    var terminal: Terminal
    var nextSequence: nat
    var reservation: Option<Reservation>
    var finishRequested: bool
    var accepted: nat
    var externalDiscarded: nat

    ghost function View(): Session
      reads this, buffer
    {
      Session(buffer.View(), generation, terminal, nextSequence, reservation, finishRequested, accepted, externalDiscarded)
    }

    constructor (maxSamples: nat)
      requires maxSamples > 0
      ensures View() == Fresh(maxSamples) && View().Inv() && fresh(buffer)
    {
      buffer := new B.PcmRingBuffer(maxSamples);
      generation, terminal, nextSequence, reservation := 1, Open, 1, None;
      finishRequested, accepted, externalDiscarded := false, 0, 0;
    }

    method AppendPcmBytes(bytes: seq<Byte>, countAccepted: bool) returns (r: Result<(nat, nat), B.Error>)
      requires View().Inv()
      modifies this`accepted, buffer
      ensures r.Err? ==> View() == old(View())
      ensures terminal != Open && terminal != Finishing ==> r == Err(B.SessionTerminal)
      ensures View().Live() && !Aligned(bytes) ==> r == Err(B.Misaligned)
      ensures Aligned(bytes) ==>
                match AppendPcm(old(View()), Decode(bytes), countAccepted)
                case Ok(after) => View() == after && View().Inv() && r.Ok?
                case Err(e) => r == Err(e)
    {
      if terminal != Open && terminal != Finishing {
        return Err(B.SessionTerminal);
      }
      if Aligned(bytes) && AppendPcm(View(), Decode(bytes), countAccepted).Ok? {
        AppendKeeps(View(), Decode(bytes), countAccepted);
      }
      r := buffer.AppendBytes(bytes);
      if r.Ok? && countAccepted {
        accepted := accepted + |bytes| / 2;
      }
    }

    method AcceptVadInputBytes(bytes: seq<Byte>) returns (r: Result<(), B.Error>)
      requires View().Inv()
      modifies this`accepted
      ensures r.Err? ==> View() == old(View())
      ensures !Aligned(bytes) ==> r == Err(B.Misaligned)
      ensures Aligned(bytes) ==>
                match AcceptVadInput(old(View()), Decode(bytes))
                case Ok(after) => View() == after && View().Inv() && r == Ok(())
                case Err(e) => r == Err(e)
    {
      if !Aligned(bytes) {
        return Err(B.Misaligned);
      }
      var samples := |bytes| / 2;
      var current := |buffer.data| + Max(0, accepted - buffer.accepted - externalDiscarded);
      if current + samples > buffer.maxSamples {
        return Err(B.PcmLimit(buffer.maxSamples, current, samples));
      }
      accepted := accepted + samples;
      return Ok(());
    }

    method RecordDiscardedSamples(samples: int) returns (r: Result<(), B.Error>)
      requires View().Inv()
      modifies this`externalDiscarded
      ensures match RecordDiscarded(old(View()), samples)
              case Ok(after) => View() == after && View().Inv() && r == Ok(())
              case Err(e) => View() == old(View()) && r == Err(e)
    {
      if samples < 0 || samples > Max(0, accepted - buffer.accepted - externalDiscarded) {
        return Err(B.DiscardExceedsPending);
      }
      externalDiscarded := externalDiscarded + samples;
      return Ok(());
    }

    method ReserveSamples(samples: int, final: bool) returns (r: Result<Reservation, B.Error>)
      requires View().Inv()
      modifies this`reservation, this`nextSequence, buffer
      ensures match Reserve(old(View()), samples, final)
              case Ok(after) => View() == after && View().Inv() && r == Ok(reservation.value)
              case Err(e) => View() == old(View()) && r == Err(e)
    {
      if reservation.Some? {
        return Err(B.ReservationActive);
      }
      var chunk := buffer.Reserve(samples, final);
      if chunk.Err? {
        return Err(chunk.error);
      }
      var taken := Reservation(nextSequence, generation, chunk.value);
      nextSequence := nextSequence + 1;
      reservation := Some(taken);
      return Ok(taken);
    }

    method AcknowledgeJob(sequence: int, job: int) returns (r: Result<B.Chunk, B.Error>)
      requires View().Inv()
      modifies this`reservation, buffer
      ensures match Acknowledge(old(View()), sequence, job)
              case Ok(after) => View() == after && View().Inv() && r == Ok(old(reservation.value.chunk))
              case Err(e) => View() == old(View()) && r == Err(e)
    {
      if job != generation {
        return Err(B.StaleGeneration);
      }
      if reservation.None? || reservation.value.sequence != sequence {
        return Err(B.ReservationMismatch);
      }
      var chunk := reservation.value.chunk;
      r := buffer.Ack(chunk.start, chunk.end);
      reservation := None;
    }

    method RollbackJob(sequence: int) returns (done: bool)
      requires View().Inv()
      modifies this`reservation, buffer
      ensures View() == Rollback(old(View()), sequence).0 && View().Inv()
      ensures done == Rollback(old(View()), sequence).1
    {
      if reservation.None? || reservation.value.sequence != sequence {
        return false;
      }
      var chunk := reservation.value.chunk;
      var undone := buffer.Undo(chunk.start, chunk.end);
      reservation := None;
      return true;
    }

    method AbortSession()
      requires View().Inv()
      modifies this, buffer
      ensures View() == Abort(old(View())) && View().Inv()
    {
      if terminal == Aborted || terminal == Failed {
        return;
      }
      if reservation.Some? {
        var chunk := reservation.value.chunk;
        var undone := buffer.Undo(chunk.start, chunk.end);
        reservation := None;
      }
      ghost var b := old(buffer.View()).(reservation := None);
      assert buffer.View() == b && b.Inv();
      var dropped := buffer.Drop(|buffer.data|);
      assert buffer.View() == B.Discard(b, b.Buffered()).value;
      externalDiscarded := externalDiscarded + Max(0, accepted - buffer.accepted - externalDiscarded);
      generation := generation + 1;
      terminal := Aborted;
    }

    method SucceedSession() returns (r: Result<(), B.Error>)
      requires View().Inv()
      modifies this`terminal
      ensures match Succeed(old(View()))
              case Ok(after) => View() == after && View().Inv() && r == Ok(())
              case Err(e) => View() == old(View()) && r == Err(e)
    {
      if |buffer.data| != 0 {
        return Err(B.UnaccountedPcm);
      }
      terminal := Succeeded;
      return Ok(());
    }
  }
}
