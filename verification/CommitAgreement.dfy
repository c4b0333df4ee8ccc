/** When the stretches an immediate commit announces (app/asr_streaming.py) are the sentences
    the splitter found, exactly; and what happens when they are not. */
module CommitAgreement {
  import opened Pcm
  import opened Sentences
  import opened ImmediateCommit
  import P = Punctuation

  // ----- white space --------------------------------------------------------------------

  predicate Blank(p: Rules, s: string) {
    forall i | 0 <= i < |s| :: p.isSpace(s[i])
  }

  lemma {:induction false} StripIgnoresLeading(p: Rules, space: string, s: string)
    requires Blank(p, space)
    ensures Strip(p, space + s) == Strip(p, s)
    decreases |space|
  {
    if space == "" {
      assert space + s == s;
    } else {
      assert (space + s)[1..] == space[1..] + s;
      StripIgnoresLeading(p, space[1..], s);
    }
  }

  lemma StripIgnoresAround(p: Rules, text: string, q: nat, start: nat, stop: nat, next: nat)
    requires q <= start <= stop <= next <= |text|
    requires Blank(p, text[q..start]) && Blank(p, text[stop..next])
    ensures Strip(p, text[q..next]) == Strip(p, text[start..stop])
    ensures Strip(p, text[q..stop]) == Strip(p, text[start..stop])
  {
    assert text[q..stop] == text[q..start] + text[start..stop];
    StripIgnoresLeading(p, text[q..start], text[start..stop]);
    assert text[q..next] == text[q..stop] + text[stop..next];
    StripIgnoresTrailing(p, text[q..stop], text[stop..next]);
  }

  lemma SkippedIsBlank(p: Rules, text: string, from: nat)
    requires from <= |text|
    ensures Blank(p, text[from..SkipSpace(p, text, from)])
  {
    var next := SkipSpace(p, text, from);
    forall k | 0 <= k < next - from ensures p.isSpace(text[from..next][k]) {
      SkippedIsSpace(p, text, from, from + k);
    }
  }

  // ----- the splitter's stops -----------------------------------------------------------

  /** Where the splitter's sentences stop. */
  function Stops(p: Rules, text: string, start: nat, index: nat): (r: seq<nat>)
    requires start <= index <= |text|
    ensures |r| == |CompleteSentences(p, text, start, index)|
    decreases |text| - index
  {
    if index == |text| then []
    else if EndsAt(p, text, index) then
      [Stop(p, text, index)] + Stops(p, text, NextStart(p, text, index), NextStart(p, text, index))
    else Stops(p, text, start, index + 1)
  }

  /** At every stop but the last, what follows the stop before it (`q` for the first), read on
      its own up to `e`, has its first sentence stop there, too. */
  ghost predicate Agrees(p: Rules, text: string, q: nat, stops: seq<nat>, e: nat)
    decreases |stops|
  {
    |stops| > 1 ==> AgreesAt(p, text, q, stops[0], e) && Agrees(p, text, stops[0], stops[1..], e)
  }

  ghost predicate AgreesAt(p: Rules, text: string, q: nat, stop: nat, e: nat) {
    q <= stop && q <= e <= |text| && StopsFirstAt(p, text[q..e], stop - q)
  }

  lemma AgreesFirst(p: Rules, text: string, q: nat, stop: nat, rest: seq<nat>, e: nat)
    ensures Agrees(p, text, q, [stop] + rest, e) <==>
            (rest != [] ==> AgreesAt(p, text, q, stop, e)) && Agrees(p, text, stop, rest, e)
  {
    assert ([stop] + rest)[1..] == rest;
  }

  // ----- agreement, exactly -------------------------------------------------------------

  /** The announced stretches are the committed sentences up to white space around them. */
  ghost predicate Announces(p: Rules, exact: Option<seq<string>>, sentences: seq<string>) {
    && exact.Some? && |exact.value| == |sentences|
    && forall i | 0 <= i < |sentences| :: Strip(p, exact.value[i]) == sentences[i]
  }

  /** The exact stretches of a prefix announce the sentences. */
  ghost predicate Verdict(p: Rules, prefix: string, sentences: seq<string>) {
    Announces(p, ExactSentences(p, prefix, |sentences|), sentences)
  }

  lemma {:induction false} NoSentenceNoCut(p: Rules, text: string, start: nat, index: nat)
    requires start <= index <= |text| && CompleteSentences(p, text, start, index) == []
    ensures Tail(p, text, start, index) == text[start..]
    decreases |text| - index
  {
    if index < |text| {
      NoSentenceNoCut(p, text, start, index + 1);
    }
  }

  /** A stretch that strips to the splitter's sentence stops where the sentence does: the two
      ends lie in one run of terminators and closers. */
  lemma StripDecidesStop(p: Rules, text: string, q: nat, start: nat, i: nat, e: nat, j: nat)
    requires EndsAt(p, text, i) && q <= start <= i && Blank(p, text[q..start]) && Stop(p, text, i) <= e <= |text|
    requires j < e - q && EndsAt(p, text[q..e], j)
    requires Strip(p, text[q..e][..Stop(p, text[q..e], j)]) == Strip(p, text[start..Stop(p, text, i)])
    ensures Stop(p, text[q..e], j) == Stop(p, text, i) - q
  {
    var u, stop := q + j, Stop(p, text, i);
    var v := q + Stop(p, text[q..e], j);
    SliceStop(p, text, q, e, j);
    assert start <= u by { VisibleIsBehind(p, text, q, start, u); }
    StretchesReach(p, text, q, start, v, stop, u, i);
    OneRun(p, text, u, i, e);
  }

  /** A stop in a slice, seen from the whole text. */
  lemma SliceStop(p: Rules, text: string, q: nat, e: nat, j: nat)
    requires q <= e <= |text| && j < e - q && EndsAt(p, text[q..e], j)
    ensures var v := q + Stop(p, text[q..e], j);
            && v == Min(Stop(p, text, q + j), e) && text[q..e][..v - q] == text[q..v]
            && q + j < v <= e && !p.isSpace(text[q + j])
  {
    RunEndInSlice(p, text, q, e, q + j + 1);
    var s := text[q..e];
    assert s[j] == text[q + j];
  }

  lemma VisibleIsBehind(p: Rules, text: string, q: nat, start: nat, u: nat)
    requires q <= start <= |text| && Blank(p, text[q..start]) && q <= u < |text| && !p.isSpace(text[u])
    ensures start <= u
  {
    forall k | q <= k < start ensures p.isSpace(text[k]) {
      assert text[q..start][k - q] == text[k];
    }
  }

  /** Two places that each lie before the other's stop have the same stop. */
  lemma OneRun(p: Rules, text: string, u: nat, i: nat, e: nat)
    requires u < e && i < e <= |text| && Stop(p, text, i) <= e
    requires i < Min(Stop(p, text, u), e) && u < Stop(p, text, i)
    ensures Min(Stop(p, text, u), e) == Stop(p, text, i)
  {
    if u < i {
      RunEndThrough(p, text, u + 1, i);
    } else if i < u {
      RunEndThrough(p, text, i + 1, u);
    }
  }

  lemma StretchesReach(p: Rules, text: string, q: nat, start: nat, v: nat, stop: nat, u: nat, i: nat)
    requires q <= start <= u < v <= |text| && start <= i < stop <= |text| && Blank(p, text[q..start])
    requires !p.isSpace(text[u]) && !p.isSpace(text[i])
    requires Strip(p, text[q..v]) == Strip(p, text[start..stop])
    ensures i < v && u < stop
  {
    assert text[q..v] == text[q..start] + text[start..v];
    StripIgnoresLeading(p, text[q..start], text[start..v]);
    BeginningsReach(p, text, start, v, stop, u, i);
  }

  lemma BeginningsReach(p: Rules, text: string, start: nat, v: nat, stop: nat, u: nat, i: nat)
    requires start <= u < v <= |text| && start <= i < stop <= |text|
    requires !p.isSpace(text[u]) && !p.isSpace(text[i])
    requires Strip(p, text[start..v]) == Strip(p, text[start..stop])
    ensures i < v && u < stop
  {
    var s := text[start..];
    assert s[..v - start] == text[start..v];
    assert s[..stop - start] == text[start..stop];
    assert s[u - start] == text[u] && s[i - start] == text[i];
    SameStripSameReach(p, s, v - start, stop - start, u - start, i - start);
  }

  // ----- one sentence more --------------------------------------------------------------

  lemma OneStretch(p: Rules, prefix: string)
    requires prefix != ""
    ensures ExactSentences(p, prefix, 1) == Some([prefix])
  {
    assert ExactSentences(p, prefix[|prefix|..], 0) == Some([]);
    assert [prefix] + [] == [prefix];
  }

  lemma LastAnnounced(p: Rules, text: string, q: nat, start: nat, stop: nat, next: nat)
    requires q <= start < stop <= next <= |text| && Blank(p, text[q..start]) && Blank(p, text[stop..next])
    ensures Verdict(p, text[q..next], [Strip(p, text[start..stop])])
  {
    StripIgnoresAround(p, text, q, start, stop, next);
    OneStretch(p, text[q..next]);
  }

  /** Announcing one more stretch. */
  lemma AnnouncesFirst(p: Rules, first: string, exact: Option<seq<string>>, sentence: string, rest: seq<string>)
    requires Strip(p, first) == sentence
    ensures Announces(p, Prepended([first], exact), [sentence] + rest) <==> Announces(p, exact, rest)
  {
    if exact.Some? {
      var all, sentences := [first] + exact.value, [sentence] + rest;
      if Announces(p, Some(all), sentences) {
        forall i | 0 <= i < |rest| ensures Strip(p, exact.value[i]) == rest[i] {
          var k := i + 1;
          assert Strip(p, all[k]) == sentences[k];
        }
      }
    }
  }

  lemma ExactFirst(p: Rules, s: string, n: nat)
    requires n > 1 && Candidate(p, s, 1) != ""
    ensures var first := Candidate(p, s, 1);
            ExactSentences(p, s, n) == Prepended([first], ExactSentences(p, s[|first|..], n - 1))
  {
  }

  /** A stretch of its own that stops elsewhere announces something else. */
  lemma WrongStop(p: Rules, text: string, q: nat, start: nat, i: nat, e: nat, sentences: seq<string>)
    requires EndsAt(p, text, i) && q <= start <= i && Blank(p, text[q..start]) && Stop(p, text, i) <= e <= |text|
    requires !StopsFirstAt(p, text[q..e], Stop(p, text, i) - q)
    requires |sentences| > 1 && sentences[0] == Strip(p, text[start..Stop(p, text, i)])
    ensures !Verdict(p, text[q..e], sentences)
  {
    var s := text[q..e];
    var first := Candidate(p, s, 1);
    CandidateStopsFirst(p, s, |first|);
    if first != "" {
      ExactFirst(p, s, |sentences|);
      var j: nat :| j < |s| && FirstEnd(p, s, j) && Stop(p, s, j) == |first|;
      assert s[..|first|] == first;
      assert Strip(p, first) != sentences[0] by {
        if Strip(p, first) == sentences[0] {
          StripDecidesStop(p, text, q, start, i, e, j);
          assert false;
        }
      }
    }
  }

  /** A stretch that strips to the sentence leaves the rest to decide. */
  lemma RightStretch(p: Rules, s: string, first: string, sentence: string, rest: seq<string>)
    requires first != "" && Candidate(p, s, 1) == first && Strip(p, first) == sentence && rest != []
    ensures Verdict(p, s, [sentence] + rest) <==> Verdict(p, s[|first|..], rest)
  {
    ExactFirst(p, s, |rest| + 1);
    AnnouncesFirst(p, first, ExactSentences(p, s[|first|..], |rest|), sentence, rest);
  }

  lemma StretchAtStop(p: Rules, text: string, q: nat, start: nat, stop: nat, e: nat)
    requires q <= start < stop <= e <= |text| && Blank(p, text[q..start])
    requires StopsFirstAt(p, text[q..e], stop - q)
    ensures Candidate(p, text[q..e], 1) == text[q..stop] && text[q..e][|text[q..stop]|..] == text[stop..e]
    ensures Strip(p, text[q..stop]) == Strip(p, text[start..stop])
  {
    CandidateStopsFirst(p, text[q..e], stop - q);
    assert Blank(p, text[stop..stop]);
    StripIgnoresAround(p, text, q, start, stop, stop);
  }

  lemma RightStop(p: Rules, text: string, q: nat, start: nat, stop: nat, e: nat, rest: seq<string>)
    requires q <= start < stop <= e <= |text| && Blank(p, text[q..start]) && rest != []
    requires StopsFirstAt(p, text[q..e], stop - q)
    ensures Verdict(p, text[q..e], [Strip(p, text[start..stop])] + rest) <==> Verdict(p, text[stop..e], rest)
  {
    StretchAtStop(p, text, q, start, stop, e);
    var s, first, sentence := text[q..e], text[q..stop], Strip(p, text[start..stop]);
    RightStretch(p, s, first, sentence, rest);
  }

  // ----- all sentences ------------------------------------------------------------------

  /** Announced exactly if agreed, for the sentences behind `q`. */
  ghost predicate Settled(p: Rules, text: string, q: nat, sentences: seq<string>, stops: seq<nat>, e: nat) {
    q <= e <= |text| && (sentences != [] ==> (Verdict(p, text[q..e], sentences) <==> Agrees(p, text, q, stops, e)))
  }

  lemma LastSettled(p: Rules, text: string, q: nat, start: nat, stop: nat, next: nat, sentence: string)
    requires q <= start < stop <= next <= |text| && Blank(p, text[q..start]) && Blank(p, text[stop..next])
    requires sentence == Strip(p, text[start..stop])
    ensures Settled(p, text, q, [sentence], [stop], next)
  {
    LastAnnounced(p, text, q, start, stop, next);
  }

  lemma RightSettled(p: Rules, text: string, q: nat, start: nat, stop: nat, e: nat, sentence: string, rest: seq<string>, stops: seq<nat>)
    requires q <= start < stop <= e <= |text| && Blank(p, text[q..start]) && rest != [] && stops != []
    requires sentence == Strip(p, text[start..stop]) && StopsFirstAt(p, text[q..e], stop - q)
    requires Settled(p, text, stop, rest, stops, e)
    ensures Settled(p, text, q, [sentence] + rest, [stop] + stops, e)
  {
    AgreesFirst(p, text, q, stop, stops, e);
    RightStop(p, text, q, start, stop, e, rest);
  }

  lemma WrongSettled(p: Rules, text: string, q: nat, start: nat, i: nat, e: nat, sentence: string, rest: seq<string>, stops: seq<nat>)
    requires EndsAt(p, text, i) && q <= start <= i && Blank(p, text[q..start]) && Stop(p, text, i) <= e <= |text|
    requires rest != [] && stops != [] && sentence == Strip(p, text[start..Stop(p, text, i)])
    requires !StopsFirstAt(p, text[q..e], Stop(p, text, i) - q)
    ensures Settled(p, text, q, [sentence] + rest, [Stop(p, text, i)] + stops, e)
  {
    AgreesFirst(p, text, q, Stop(p, text, i), stops, e);
    WrongStop(p, text, q, start, i, e, [sentence] + rest);
  }

  lemma SentenceSettled(p: Rules, text: string, q: nat, start: nat, i: nat, rest: seq<string>, stops: seq<nat>, e: nat)
    requires EndsAt(p, text, i) && q <= start <= i && Blank(p, text[q..start])
    requires NextStart(p, text, i) <= e <= |text| && (rest == [] ==> e == NextStart(p, text, i)) && |stops| == |rest|
    requires Settled(p, text, Stop(p, text, i), rest, stops, e)
    ensures Settled(p, text, q, [Strip(p, text[start..Stop(p, text, i)])] + rest, [Stop(p, text, i)] + stops, e)
  {
    var stop := Stop(p, text, i);
    var sentence := Strip(p, text[start..stop]);
    if rest == [] {
      SkippedIsBlank(p, text, stop);
      LastSettled(p, text, q, start, stop, e, sentence);
      assert [sentence] + rest == [sentence] && [stop] + stops == [stop];
    } else if StopsFirstAt(p, text[q..e], stop - q) {
      RightSettled(p, text, q, start, stop, e, sentence, rest, stops);
    } else {
      WrongSettled(p, text, q, start, i, e, sentence, rest, stops);
    }
  }

  lemma SplitAtEnd(p: Rules, text: string, start: nat, i: nat)
    requires start <= i && EndsAt(p, text, i)
    ensures var next := NextStart(p, text, i);
            && CompleteSentences(p, text, start, i) == [Strip(p, text[start..Stop(p, text, i)])] + CompleteSentences(p, text, next, next)
            && Stops(p, text, start, i) == [Stop(p, text, i)] + Stops(p, text, next, next)
            && Tail(p, text, start, i) == Tail(p, text, next, next)
  {
  }

  lemma SplitPast(p: Rules, text: string, start: nat, i: nat)
    requires start <= i < |text| && !EndsAt(p, text, i)
    ensures CompleteSentences(p, text, start, i) == CompleteSentences(p, text, start, i + 1)
    ensures Stops(p, text, start, i) == Stops(p, text, start, i + 1)
    ensures Tail(p, text, start, i) == Tail(p, text, start, i + 1)
  {
  }

  lemma EndSettled(p: Rules, text: string, q: nat, start: nat, i: nat, e: nat)
    requires EndsAt(p, text, i) && q <= start <= i && Blank(p, text[q..start])
    requires var next := NextStart(p, text, i);
             && e == |text| - |Tail(p, text, next, next)|
             && Settled(p, text, Stop(p, text, i), CompleteSentences(p, text, next, next), Stops(p, text, next, next), e)
    ensures Settled(p, text, q, CompleteSentences(p, text, start, i), Stops(p, text, start, i), e)
  {
    var next := NextStart(p, text, i);
    var rest, more := CompleteSentences(p, text, next, next), Stops(p, text, next, next);
    if rest == [] {
      NoSentenceNoCut(p, text, next, next);
    }
    SplitAtEnd(p, text, start, i);
    SentenceSettled(p, text, q, start, i, rest, more, e);
  }

  lemma {:induction false} AllSettled(p: Rules, text: string, q: nat, start: nat, index: nat,
                                      sentences: seq<string>, stops: seq<nat>, tail: string)
    requires q <= start <= index <= |text| && Blank(p, text[q..start])
    requires sentences == CompleteSentences(p, text, start, index) && stops == Stops(p, text, start, index)
    requires tail == Tail(p, text, start, index)
    ensures Settled(p, text, q, sentences, stops, |text| - |tail|)
    decreases |text| - index
  {
    if index == |text| {
    } else if !EndsAt(p, text, index) {
      SplitPast(p, text, start, index);
      AllSettled(p, text, q, start, index + 1, sentences, stops, tail);
    } else {
      var next := NextStart(p, text, index);
      SplitAtEnd(p, text, start, index);
      SkippedIsBlank(p, text, Stop(p, text, index));
      AllSettled(p, text, Stop(p, text, index), next, next, CompleteSentences(p, text, next, next), Stops(p, text, next, next), tail);
      EndSettled(p, text, q, start, index, |text| - |tail|);
    }
  }

  /** An immediate commit announces the splitter's sentences, up to white space, if and only
      if at every stop but the last the text behind the stop before it, read on its own, has
      its first sentence stop at the same place. */
  lemma AnnouncesExactly(p: Rules, text: string)
    requires CompleteSentences(p, text, 0, 0) != []
    ensures Verdict(p, Prefix(p, text), CompleteSentences(p, text, 0, 0))
            <==> Agrees(p, text, 0, Stops(p, text, 0, 0), |Prefix(p, text)|)
  {
    AllSettled(p, text, 0, 0, 0, CompleteSentences(p, text, 0, 0), Stops(p, text, 0, 0), Tail(p, text, 0, 0));
    assert text[0..|Prefix(p, text)|] == Prefix(p, text);
  }
}
