/** How long a listener waits for audio that is late (scripts/benchmark_tts_stream.py), in
    exact arithmetic. */
module Playback {
  import opened Pcm

  datatype Error = Misaligned | NonPositiveDuration | NotMonotonic

  /** The audio of the first `n` chunks. */
  function Delivered(durations: seq<real>, n: nat): real
    requires n <= |durations|
  {
    if n == 0 then 0.0 else Delivered(durations, n - 1) + durations[n - 1]
  }

  /** How far behind the audio delivered before it chunk `i` arrives. */
  function Lateness(arrivals: seq<real>, durations: seq<real>, i: nat): real
    requires i < |arrivals| == |durations|
  {
    arrivals[i] - arrivals[0] - Delivered(durations, i)
  }

  function Problem(arrivals: seq<real>, durations: seq<real>, i: nat): Option<Error>
    requires i < |arrivals| == |durations|
  {
    if durations[i] <= 0.0 then Some(NonPositiveDuration)
    else if i > 0 && arrivals[i] < arrivals[i - 1] then Some(NotMonotonic)
    else None
  }

  /** The greatest lateness of the first `n` chunks, or zero. */
  ghost predicate IsWorst(arrivals: seq<real>, durations: seq<real>, n: nat, total: real)
    requires n <= |arrivals| == |durations|
  {
    && total >= 0.0
    && (forall i | 0 <= i < n :: Lateness(arrivals, durations, i) <= total)
    && (total == 0.0 || exists i :: 0 <= i < n && Lateness(arrivals, durations, i) == total)
  }

  /** Playback that starts `delay` after the first arrival never waits for a chunk. */
  ghost predicate StallFree(arrivals: seq<real>, durations: seq<real>, delay: real)
    requires |arrivals| == |durations|
  {
    forall i | 0 <= i < |arrivals| :: arrivals[i] <= arrivals[0] + delay + Delivered(durations, i)
  }

  /** The loop adds up the stalls of a player that starts at once. Their sum is the worst
      lateness of any chunk. */
  method UnderrunSeconds(arrivals: seq<real>, durations: seq<real>) returns (r: Result<real, Error>)
    ensures arrivals == [] || |arrivals| != |durations| <==> r == Err(Misaligned)
    ensures arrivals != [] && |arrivals| == |durations| ==>
              if r.Ok? then
                && (forall i | 0 <= i < |arrivals| :: Problem(arrivals, durations, i).None?)
                && IsWorst(arrivals, durations, |arrivals|, r.value)
              else
                exists n :: && 0 <= n < |arrivals| && Problem(arrivals, durations, n) == Some(r.error)
                            && forall i | 0 <= i < n :: Problem(arrivals, durations, i).None?
  {
    if arrivals == [] || |arrivals| != |durations| {
      return Err(Misaligned);
    }
    var buffer, underrun, previous := 0.0, 0.0, arrivals[0];
    for index := 0 to |arrivals|
      invariant forall i | 0 <= i < index :: Problem(arrivals, durations, i).None?
      invariant previous == if index == 0 then arrivals[0] else arrivals[index - 1]
      invariant buffer == Delivered(durations, index) + underrun - (previous - arrivals[0])
      invariant buffer >= 0.0 && (index == 0 ==> underrun == 0.0)
      invariant IsWorst(arrivals, durations, index, underrun)
    {
      var arrival, duration := arrivals[index], durations[index];
      if duration <= 0.0 {
        assert Problem(arrivals, durations, index) == Some(NonPositiveDuration);
        return Err(NonPositiveDuration);
      }
      ghost var before := underrun;
      if index > 0 {
        var gap := arrival - previous;
        if gap < 0.0 {
          assert Problem(arrivals, durations, index) == Some(NotMonotonic);
          return Err(NotMonotonic);
        }
        underrun := underrun + if gap - buffer > 0.0 then gap - buffer else 0.0;
        buffer := if buffer - gap > 0.0 then buffer - gap else 0.0;
      }
      assert underrun == before || underrun == Lateness(arrivals, durations, index);
      buffer := buffer + duration;
      previous := arrival;
    }
    return Ok(underrun);
  }

  /** The reported total is the least extra delay after which playback never stalls: every
      shorter one stalls, every longer one does not. */
  lemma WorstIsLeastDelay(arrivals: seq<real>, durations: seq<real>, total: real, delay: real)
    requires 0 < |arrivals| == |durations| && IsWorst(arrivals, durations, |arrivals|, total) && delay >= 0.0
    ensures StallFree(arrivals, durations, delay) <==> delay >= total
  {
    if StallFree(arrivals, durations, delay) && total > 0.0 {
      var i :| 0 <= i < |arrivals| && Lateness(arrivals, durations, i) == total;
      assert arrivals[i] <= arrivals[0] + delay + Delivered(durations, i);
    }
    if delay >= total {
      forall i | 0 <= i < |arrivals| ensures arrivals[i] <= arrivals[0] + delay + Delivered(durations, i) {
        assert Lateness(arrivals, durations, i) <= total;
      }
    }
  }
}
