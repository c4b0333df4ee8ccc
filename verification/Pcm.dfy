/** Sixteen-bit little-endian PCM: the audio every component of the gateway moves around.
    A buffer holds whole samples; bytes exist only at the boundary, where an odd byte
    count is an error. */
module Pcm {

  type Byte = b: int | 0 <= b < 256

  datatype Sample = Sample(low: Byte, high: Byte)

  type Audio = seq<Sample>

  datatype Option<+T> = None | Some(value: T)

  datatype Result<+T, +E> = Ok(value: T) | Err(error: E)

  /** True of the byte strings that hold a whole number of samples. */
  predicate Aligned(bytes: seq<Byte>) {
    |bytes| % 2 == 0
  }

  /** The samples of an aligned byte string. */
  function Decode(bytes: seq<Byte>): (audio: Audio)
    requires Aligned(bytes)
    ensures |audio| == |bytes| / 2
  {
    seq(|bytes| / 2, i requires 0 <= i < |bytes| / 2 => Sample(bytes[2 * i], bytes[2 * i + 1]))
  }

  /** Decoding does not care where an aligned byte string is cut. */
  lemma DecodeConcat(a: seq<Byte>, b: seq<Byte>)
    requires Aligned(a) && Aligned(b)
    ensures Aligned(a + b)
    ensures Decode(a + b) == Decode(a) + Decode(b)
  {
    assert |Decode(a + b)| == |Decode(a) + Decode(b)|;
    forall i | 0 <= i < |Decode(a + b)|
      ensures Decode(a + b)[i] == (Decode(a) + Decode(b))[i]
    {
      if i >= |Decode(a)| {
        var j := i - |Decode(a)|;
        assert (a + b)[2 * i] == b[2 * j] && (a + b)[2 * i + 1] == b[2 * j + 1];
      }
    }
  }

  /** The concatenation of a sequence of chunks. */
  function Joined<T>(chunks: seq<seq<T>>): (whole: seq<T>) {
    if chunks == [] then [] else Joined(chunks[..|chunks| - 1]) + chunks[|chunks| - 1]
  }

  lemma JoinedSnoc<T>(chunks: seq<seq<T>>, chunk: seq<T>)
    ensures Joined(chunks + [chunk]) == Joined(chunks) + chunk
  {
    assert (chunks + [chunk])[..|chunks|] == chunks;
  }

  function Min(a: int, b: int): int {
    if a <= b then a else b
  }

  function Max(a: int, b: int): int {
    if a >= b then a else b
  }
}
