/** Where sentences end in a transcript (app/asr_streaming.py): the splitter that commits
    complete sentences and the search for the first candidate, for any rules that say which
    characters end a sentence. */
module Sentences {
  import opened Pcm

  /** `ends(text, i)`: the character at `i` ends a sentence, given all of `text`.
      `trails(c)`: `c` may follow such a character and still belong to the sentence. */
  datatype Rules = Rules(isSpace: char -> bool, trails: char -> bool, ends: (string, nat) -> bool)

  predicate EndsAt(p: Rules, text: string, i: nat) {
    i < |text| && !p.isSpace(text[i]) && p.ends(text, i)
  }

  // ----- stretches ----------------------------------------------------------------------

  /** The end of the run of terminators and closers that starts at `from`. */
  function RunEnd(p: Rules, text: string, from: nat): (r: nat)
    requires from <= |text|
    ensures from <= r <= |text|
    decreases |text| - from
  {
    if from < |text| && p.trails(text[from]) then RunEnd(p, text, from + 1) else from
  }

  method SentenceBoundaryEnd(p: Rules, text: string, index: nat) returns (end: nat)
    requires index < |text|
    ensures end == RunEnd(p, text, index + 1)
  {
    end := index + 1;
    while end < |text|
      invariant index < end <= |text|
      invariant RunEnd(p, text, end) == RunEnd(p, text, index + 1)
    {
      if !p.trails(text[end]) {
        break;
      }
      end := end + 1;
    }
  }

  function SkipSpace(p: Rules, text: string, from: nat): (r: nat)
    requires from <= |text|
    ensures from <= r <= |text|
    decreases |text| - from
  {
    if from < |text| && p.isSpace(text[from]) then SkipSpace(p, text, from + 1) else from
  }

  /** Where the sentence that ends at `i` stops, and where the next one starts. */
  function Stop(p: Rules, text: string, i: nat): (r: nat)
    requires i < |text|
    ensures i < r <= |text|
  {
    RunEnd(p, text, i + 1)
  }

  function NextStart(p: Rules, text: string, i: nat): (r: nat)
    requires i < |text|
    ensures i < r <= |text|
  {
    SkipSpace(p, text, Stop(p, text, i))
  }

  lemma {:induction false} SkippedIsSpace(p: Rules, text: string, from: nat, j: nat)
    requires from <= |text| && from <= j < SkipSpace(p, text, from)
    ensures p.isSpace(text[j])
    decreases j - from
  {
    if from < j {
      SkippedIsSpace(p, text, from + 1, j);
    }
  }

  /** White space taken off both sides. */
  function Strip(p: Rules, s: string): (r: string)
    ensures r != "" ==> !p.isSpace(r[0]) && !p.isSpace(r[|r| - 1])
  {
    if s == "" then ""
    else if p.isSpace(s[0]) then Strip(p, s[1..])
    else if p.isSpace(s[|s| - 1]) then Strip(p, s[..|s| - 1])
    else s
  }

  lemma {:induction false} StripKeepsVisible(p: Rules, s: string, i: nat)
    requires i < |s| && !p.isSpace(s[i])
    ensures Strip(p, s) != ""
    decreases |s|
  {
    if p.isSpace(s[0]) {
      StripKeepsVisible(p, s[1..], i - 1);
    } else if p.isSpace(s[|s| - 1]) {
      StripKeepsVisible(p, s[..|s| - 1], i);
    }
  }

  /** White space at the end makes no difference to what is left after stripping. */
  lemma {:induction false} StripIgnoresTrailing(p: Rules, s: string, space: string)
    requires forall i | 0 <= i < |space| :: p.isSpace(space[i])
    ensures Strip(p, s + space) == Strip(p, s)
    decreases |s| + |space|
  {
    if space == "" {
      assert s + space == s;
    } else if s == "" {
      assert s + space == space && "" + space[1..] == space[1..];
      StripIgnoresTrailing(p, "", space[1..]);
    } else if p.isSpace(s[0]) {
      assert (s + space)[1..] == s[1..] + space;
      StripIgnoresTrailing(p, s[1..], space);
    } else {
      var less := space[..|space| - 1];
      assert (s + space)[..|s + space| - 1] == s + less;
      StripIgnoresTrailing(p, s, less);
    }
  }

  // ----- the splitter -------------------------------------------------------------------

  /** The complete sentences of the text from `start` on, stripped, when no sentence is known
      to end before `index`. */
  function CompleteSentences(p: Rules, text: string, start: nat, index: nat): (r: seq<string>)
    requires start <= index <= |text|
    decreases |text| - index
  {
    if index == |text| then []
    else if EndsAt(p, text, index) then
      var next := NextStart(p, text, index);
      [Strip(p, text[start..Stop(p, text, index)])] + CompleteSentences(p, text, next, next)
    else CompleteSentences(p, text, start, index + 1)
  }

  /** The text after the last of them. */
  function Tail(p: Rules, text: string, start: nat, index: nat): (r: string)
    requires start <= index <= |text|
    ensures |r| <= |text| - start
    decreases |text| - index
  {
    if index == |text| then text[start..]
    else if EndsAt(p, text, index) then
      var next := NextStart(p, text, index);
      Tail(p, text, next, next)
    else Tail(p, text, start, index + 1)
  }

  /** The same sentences uncut, each with the white space that follows it. */
  function Pieces(p: Rules, text: string, start: nat, index: nat): (r: seq<string>)
    requires start <= index <= |text|
    decreases |text| - index
  {
    if index == |text| then []
    else if EndsAt(p, text, index) then
      var next := NextStart(p, text, index);
      [text[start..next]] + Pieces(p, text, next, next)
    else Pieces(p, text, start, index + 1)
  }

  lemma {:induction false} JoinedCons<T>(first: seq<T>, rest: seq<seq<T>>)
    ensures Joined([first] + rest) == first + Joined(rest)
    decreases |rest|
  {
    if rest == [] {
      assert ([first] + rest)[..0] == [];
    } else {
      var front := rest[..|rest| - 1];
      JoinedCons(first, front);
      assert ([first] + rest)[..|rest|] == [first] + front;
      assert first + Joined(front) + rest[|rest| - 1] == first + (Joined(front) + rest[|rest| - 1]);
    }
  }

  /** A sentence is never empty, and its white space is all that stripping its piece removes. */
  lemma StrippedPiece(p: Rules, text: string, start: nat, i: nat)
    requires start <= i && EndsAt(p, text, i)
    ensures var sentence := Strip(p, text[start..Stop(p, text, i)]);
            sentence != "" && sentence == Strip(p, text[start..NextStart(p, text, i)])
  {
    var stop, next := Stop(p, text, i), NextStart(p, text, i);
    StripKeepsVisible(p, text[start..stop], i - start);
    forall k | 0 <= k < next - stop ensures p.isSpace(text[stop..next][k]) {
      SkippedIsSpace(p, text, stop, stop + k);
    }
    assert text[start..next] == text[start..stop] + text[stop..next];
    StripIgnoresTrailing(p, text[start..stop], text[stop..next]);
  }

  lemma PieceThenRest(first: string, pieces: seq<string>, tail: string, rest: string)
    requires Joined(pieces) + tail == rest
    ensures Joined([first] + pieces) + tail == first + rest
  {
    JoinedCons(first, pieces);
    assert first + Joined(pieces) + tail == first + (Joined(pieces) + tail);
  }

  /** Splitting loses nothing but white space around sentences. */
  lemma {:induction false} PiecesTile(p: Rules, text: string, start: nat, index: nat)
    requires start <= index <= |text|
    ensures Joined(Pieces(p, text, start, index)) + Tail(p, text, start, index) == text[start..]
    decreases |text| - index
  {
    if index < |text| {
      if EndsAt(p, text, index) {
        var next := NextStart(p, text, index);
        PiecesTile(p, text, next, next);
        PieceThenRest(text[start..next], Pieces(p, text, next, next), Tail(p, text, next, next), text[next..]);
        assert text[start..next] + text[next..] == text[start..];
      } else {
        PiecesTile(p, text, start, index + 1);
      }
    }
  }

  /** Every committed sentence is its piece without surrounding white space, and not empty. */
  lemma {:induction false} SentencesAreStrippedPieces(p: Rules, text: string, start: nat, index: nat)
    requires start <= index <= |text|
    ensures |CompleteSentences(p, text, start, index)| == |Pieces(p, text, start, index)|
    ensures forall i | 0 <= i < |Pieces(p, text, start, index)| ::
              CompleteSentences(p, text, start, index)[i] == Strip(p, Pieces(p, text, start, index)[i]) != ""
    decreases |text| - index
  {
    if index < |text| {
      if EndsAt(p, text, index) {
        StrippedPiece(p, text, start, index);
        var next := NextStart(p, text, index);
        SentencesAreStrippedPieces(p, text, next, next);
      } else {
        SentencesAreStrippedPieces(p, text, start, index + 1);
      }
    }
  }

  /** The tail holds no complete sentence. */
  lemma {:induction false} TailIsIncomplete(p: Rules, text: string, start: nat, index: nat, j: nat)
    requires start <= index <= |text|
    requires forall k | start <= k < index :: !EndsAt(p, text, k)
    requires |text| - |Tail(p, text, start, index)| <= j < |text|
    ensures !EndsAt(p, text, j)
    decreases |text| - index
  {
    if index < |text| {
      if EndsAt(p, text, index) {
        var next := NextStart(p, text, index);
        TailIsIncomplete(p, text, next, next, j);
      } else {
        TailIsIncomplete(p, text, start, index + 1, j);
      }
    }
  }

  /** The splitter as the index loop it is. */
  method SplitCommittedSentences(p: Rules, text: string) returns (committed: seq<string>, tail: string)
    ensures committed == CompleteSentences(p, text, 0, 0)
    ensures tail == Tail(p, text, 0, 0)
  {
    committed := [];
    var start: nat, index: nat := 0, 0;
    while index < |text|
      invariant start <= index <= |text|
      invariant CompleteSentences(p, text, 0, 0) == committed + CompleteSentences(p, text, start, index)
      invariant Tail(p, text, 0, 0) == Tail(p, text, start, index)
    {
      if EndsAt(p, text, index) {
        var end := SentenceBoundaryEnd(p, text, index);
        var sentence := Strip(p, text[start..end]);
        StrippedPiece(p, text, start, index);
        if sentence != "" {
          committed := committed + [sentence];
        }
        start := SkipSpace(p, text, end);
        index := start;
      } else {
        index := index + 1;
      }
    }
    tail := text[start..];
    assert committed + [] == committed;
  }

  // ----- the first candidate ------------------------------------------------------------

  function VisibleLength(p: Rules, s: string): (n: nat)
    ensures (exists c :: c in s && !p.isSpace(c)) ==> n > 0
  {
    if |s| == 0 then 0 else (if p.isSpace(s[0]) then 0 else 1) + VisibleLength(p, s[1..])
  }

  /** It counts the characters that are not white space, one by one. */
  lemma {:induction false} VisibleCounts(p: Rules, a: string, b: string)
    ensures VisibleLength(p, a + b) == VisibleLength(p, a) + VisibleLength(p, b)
    ensures forall c :: VisibleLength(p, [c]) == if p.isSpace(c) then 0 else 1
  {
    if a == "" {
      assert a + b == b;
    } else {
      assert (a + b)[1..] == a[1..] + b;
      VisibleCounts(p, a[1..], b);
    }
  }

  /** The shortest prefix that ends a sentence at or after `index` and is long enough. */
  function CandidateFrom(p: Rules, text: string, minChars: int, index: nat): (r: string)
    requires index <= |text|
    ensures r <= text
    decreases |text| - index
  {
    if index == |text| then ""
    else if EndsAt(p, text, index) then
      var stop := Stop(p, text, index);
      if VisibleLength(p, text[..stop]) >= minChars then text[..stop] else CandidateFrom(p, text, minChars, stop)
    else CandidateFrom(p, text, minChars, index + 1)
  }

  function Candidate(p: Rules, text: string, minChars: int): (r: string)
    ensures r <= text
  {
    CandidateFrom(p, text, minChars, 0)
  }

  method FirstPunctuationCandidate(p: Rules, text: string, minChars: int) returns (r: string)
    ensures r == Candidate(p, text, minChars)
  {
    var index: nat := 0;
    while index < |text|
      invariant index <= |text|
      invariant CandidateFrom(p, text, minChars, index) == Candidate(p, text, minChars)
    {
      if EndsAt(p, text, index) {
        var end := SentenceBoundaryEnd(p, text, index);
        if VisibleLength(p, text[..end]) >= minChars {
          return text[..end];
        }
        index := end;
      } else {
        index := index + 1;
      }
    }
    return "";
  }

  /** A candidate has the length asked for and stops exactly where some sentence does. */
  lemma {:induction false} CandidateEndsASentence(p: Rules, text: string, minChars: int, index: nat)
    requires index <= |text| && CandidateFrom(p, text, minChars, index) != ""
    ensures VisibleLength(p, CandidateFrom(p, text, minChars, index)) >= minChars
    ensures exists i :: index <= i && EndsAt(p, text, i) && CandidateFrom(p, text, minChars, index) == text[..Stop(p, text, i)]
    decreases |text| - index
  {
    if !EndsAt(p, text, index) {
      CandidateEndsASentence(p, text, minChars, index + 1);
    } else if VisibleLength(p, text[..Stop(p, text, index)]) < minChars {
      CandidateEndsASentence(p, text, minChars, Stop(p, text, index));
    }
  }

  /** With a minimum of one character the candidate is the first committed sentence. */
  lemma {:induction false} FirstCandidateIsFirstSentence(p: Rules, text: string, index: nat)
    requires index <= |text|
    ensures CandidateFrom(p, text, 1, index) != "" <==> CompleteSentences(p, text, 0, index) != []
    ensures CandidateFrom(p, text, 1, index) != "" ==>
              Strip(p, CandidateFrom(p, text, 1, index)) == CompleteSentences(p, text, 0, index)[0]
    decreases |text| - index
  {
    if index < |text| {
      if EndsAt(p, text, index) {
        var first := text[..Stop(p, text, index)];
        assert first[index] in first;
        assert first == text[0..Stop(p, text, index)];
      } else {
        FirstCandidateIsFirstSentence(p, text, index + 1);
      }
    }
  }

  // ----- the exact sentences of a commit ------------------------------------------------

  /** The prefix to be confirmed cut into `n` nonempty stretches, or nothing if the candidate
      search, which no longer sees the text already cut off, runs out of text first. */
  function ExactSentences(p: Rules, prefix: string, n: nat): (r: Option<seq<string>>)
    ensures r.Some? ==> |r.value| == n && forall i | 0 <= i < n :: r.value[i] != ""
  {
    if n == 0 then Some([])
    else
      var first := if n == 1 then prefix else Candidate(p, prefix, 1);
      if first == "" then None
      else
        match ExactSentences(p, prefix[|first|..], n - 1)
        case None => None
        case Some(rest) => Some([first] + rest)
  }

  lemma {:induction false} ExactSentencesTile(p: Rules, prefix: string, n: nat)
    requires n > 0 && ExactSentences(p, prefix, n).Some?
    ensures Joined(ExactSentences(p, prefix, n).value) == prefix
    decreases n
  {
    var first := if n == 1 then prefix else Candidate(p, prefix, 1);
    var left := prefix[|first|..];
    if n == 1 {
      assert left == "";
    } else {
      ExactSentencesTile(p, left, n - 1);
    }
    JoinedFirst(first, ExactSentences(p, left, n - 1).value, prefix);
  }

  lemma JoinedFirst(first: string, rest: seq<string>, text: string)
    requires first <= text && Joined(rest) == text[|first|..]
    ensures Joined([first] + rest) == text
  {
    JoinedCons(first, rest);
  }

  function Prepended(done: seq<string>, more: Option<seq<string>>): Option<seq<string>> {
    if more.None? then None else Some(done + more.value)
  }

  lemma CutOne(p: Rules, done: seq<string>, remaining: string, sentence: string, n: nat)
    requires n > 0 && sentence == if n == 1 then remaining else Candidate(p, remaining, 1)
    ensures Prepended(done, ExactSentences(p, remaining, n))
         == if sentence == "" then None else Prepended(done + [sentence], ExactSentences(p, remaining[|sentence|..], n - 1))
  {
    var more := ExactSentences(p, remaining[|sentence|..], n - 1);
    assert more.Some? ==> done + ([sentence] + more.value) == done + [sentence] + more.value;
  }

  /** The loop that cuts the prefix, giving up at the first empty stretch. */
  method CutExactSentences(p: Rules, prefix: string, n: nat) returns (r: Option<seq<string>>)
    ensures r == ExactSentences(p, prefix, n)
  {
    var sentences: seq<string> := [];
    var remaining := prefix;
    assert ExactSentences(p, prefix, n).Some? ==> [] + ExactSentences(p, prefix, n).value == ExactSentences(p, prefix, n).value;
    for index := 0 to n
      invariant ExactSentences(p, prefix, n) == Prepended(sentences, ExactSentences(p, remaining, n - index))
    {
      var sentence := remaining;
      if index < n - 1 {
        sentence := FirstPunctuationCandidate(p, remaining, 1);
      }
      CutOne(p, sentences, remaining, sentence, n - index);
      if sentence == "" {
        return None;
      }
      sentences := sentences + [sentence];
      remaining := remaining[|sentence|..];
    }
    assert sentences + [] == sentences;
    return Some(sentences);
  }
}
