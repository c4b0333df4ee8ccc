/** Tails that are always committed, and one that is not (app/asr_streaming.py). */
module CommitExamples {
  import opened Pcm
  import opened Sentences
  import opened ImmediateCommit
  import opened CommitAgreement
  import P = Punctuation

  /** Whether a character ends a sentence does not depend on what is cut off around it. */
  ghost predicate Local(p: Rules, text: string) {
    forall a: nat, b: nat, i: nat :: a <= i < b <= |text| ==> (EndsInSlice(p, text, a, b, i) <==> EndsAt(p, text, i))
  }

  predicate EndsInSlice(p: Rules, text: string, a: nat, b: nat, i: nat)
    requires a <= i < b <= |text|
  {
    EndsAt(p, text[a..b], i - a)
  }

  lemma FirstStretch(p: Rules, text: string, q: nat, start: nat, e: nat, i: nat)
    requires Local(p, text) && EndsAt(p, text, i) && q <= start <= i && Blank(p, text[q..start])
    requires forall j | start <= j < i :: !EndsAt(p, text, j)
    requires Stop(p, text, i) <= e <= |text|
    ensures AgreesAt(p, text, q, Stop(p, text, i), e)
  {
    var s := text[q..e];
    forall j | 0 <= j < i - q ensures !EndsAt(p, s, j) {
      var k := q + j;
      if k < start {
        assert p.isSpace(text[q..start][j]);
      } else {
        assert EndsInSlice(p, text, q, e, k) <==> EndsAt(p, text, k);
      }
    }
    assert EndsInSlice(p, text, q, e, i) <==> EndsAt(p, text, i);
    RunEndInSlice(p, text, q, e, i + 1);
    var j: nat := i - q;
    assert FirstEnd(p, s, j) && Stop(p, s, j) == Stop(p, text, i) - q;
  }

  lemma {:induction false} LocalAgrees(p: Rules, text: string, q: nat, start: nat, index: nat, stops: seq<nat>, e: nat)
    requires Local(p, text) && q <= start <= index <= |text| && Blank(p, text[q..start])
    requires forall j | start <= j < index :: !EndsAt(p, text, j)
    requires stops == Stops(p, text, start, index) && e == |text| - |Tail(p, text, start, index)|
    ensures Agrees(p, text, q, stops, e)
    decreases |text| - index
  {
    if index == |text| {
    } else if !EndsAt(p, text, index) {
      SplitPast(p, text, start, index);
      LocalAgrees(p, text, q, start, index + 1, stops, e);
    } else {
      var stop, next := Stop(p, text, index), NextStart(p, text, index);
      SplitAtEnd(p, text, start, index);
      SkippedIsBlank(p, text, stop);
      var more := Stops(p, text, next, next);
      LocalAgrees(p, text, stop, next, next, more, e);
      FirstStretch(p, text, q, start, e, index);
      AgreesFirst(p, text, q, stop, more, e);
    }
  }

  /** With local rules an immediate commit never refuses: it announces exactly the sentences
      the splitter found. */
  lemma LocalCommitNeverRefuses(p: Rules, text: string)
    requires Local(p, text) && CompleteSentences(p, text, 0, 0) != []
    ensures Verdict(p, Prefix(p, text), CompleteSentences(p, text, 0, 0))
  {
    LocalAgrees(p, text, 0, 0, 0, Stops(p, text, 0, 0), |Prefix(p, text)|);
    AnnouncesExactly(p, text);
  }

  // ----- the standard rules -------------------------------------------------------------

  lemma StandardEnds(t: P.Alphabet, text: string, i: nat)
    requires i < |text|
    ensures EndsAt(P.Standard(t), text, i) <==> P.SentenceEndsAt(t, text, i)
  {
  }

  /** Only dots are judged by their surroundings. */
  lemma NoDotsIsLocal(t: P.Alphabet, text: string)
    requires '.' !in text
    ensures Local(P.Standard(t), text)
  {
    forall a: nat, b: nat, i: nat | a <= i < b <= |text|
      ensures EndsInSlice(P.Standard(t), text, a, b, i) <==> EndsAt(P.Standard(t), text, i)
    {
      assert text[a..b][i - a] == text[i] && text[i] in text;
      StandardEnds(t, text[a..b], i - a);
      StandardEnds(t, text, i);
    }
  }

  /** A tail without dots is committed, and announced as it was split, whenever it holds a
      complete sentence. */
  lemma DotlessCommitNeverRefuses(t: P.Alphabet, text: string)
    requires '.' !in text && CompleteSentences(P.Standard(t), text, 0, 0) != []
    ensures Verdict(P.Standard(t), Prefix(P.Standard(t), text), CompleteSentences(P.Standard(t), text, 0, 0))
  {
    NoDotsIsLocal(t, text);
    LocalCommitNeverRefuses(P.Standard(t), text);
  }

  // ----- and where they disagree --------------------------------------------------------

  /** What the example needs to know about the character tables. */
  ghost predicate Latin(t: P.Alphabet) {
    && t.isSpace(' ') && !t.isSpace('B') && !t.isSpace('C')
    && !t.isDigit(' ') && !t.isAlnum(' ')
    && t.isAlpha('B') && t.isUpper('B') && !t.isAlpha('!') && !t.isAlpha(' ')
    && t.lower(".B.") == ".b." && t.lower("B.") == "b."
  }

  const DOTTED := "!.B. C!"

  lemma OneInitial()
    ensures P.NonEmpty(P.Parts(".B.")) == ["B"] && P.NonEmpty(P.Parts("B.")) == ["B"]
  {
    assert "."[1..] == "" && "B."[1..] == "." && ".B."[1..] == "B.";
    assert P.Parts("") == [""];
    assert P.Parts(".") == ["", ""];
    assert ['B'] + "" == "B" && ["", ""][1..] == [""];
    assert P.Parts("B.") == ["B", ""];
    assert P.Parts(".B.") == ["", "B", ""];
    assert P.NonEmpty([]) == [];
    assert [""][1..] == [] && ["B", ""][1..] == [""] && ["", "B", ""][1..] == ["B", ""];
    assert P.NonEmpty([""]) == [];
    assert P.NonEmpty(["B", ""]) == ["B"];
  }

  /** In the whole text the second dot ends a sentence, since its token is ".B.". */
  lemma DottedEnds(t: P.Alphabet)
    requires Latin(t)
    ensures P.SentenceEndsAt(t, DOTTED, 0) && P.SentenceEndsAt(t, DOTTED, 3) && P.SentenceEndsAt(t, DOTTED, 6)
    ensures !P.SentenceEndsAt(t, DOTTED, 2) && !P.SentenceEndsAt(t, DOTTED, 5)
  {
    DottedToken(t);
    OneInitial();
  }

  lemma DottedToken(t: P.Alphabet)
    requires Latin(t)
    ensures P.TokenStart(t, DOTTED, 3) == 1 && DOTTED[1..4] == ".B."
  {
    assert P.TokenStart(t, DOTTED, 1) == 1;
    assert P.TokenStart(t, DOTTED, 2) == 1;
  }

  /** In what is left after the first sentence its token is the initial "B.", and it does not. */
  lemma LeftEnds(t: P.Alphabet)
    requires Latin(t)
    ensures !P.SentenceEndsAt(t, LEFT, 0) && !P.SentenceEndsAt(t, LEFT, 1) && !P.SentenceEndsAt(t, LEFT, 2) && !P.SentenceEndsAt(t, LEFT, 3)
    ensures P.SentenceEndsAt(t, LEFT, 4)
  {
    assert P.TokenStart(t, LEFT, 1) == 0;
    assert LEFT[0..2] == "B.";
  }

  const LEFT := "B. C!"

  /** What the rules make of the example and of what is left after its first sentence. */
  ghost predicate Disagrees(p: Rules) {
    && p.isSpace(' ') && !p.isSpace('!') && !p.isSpace('.') && !p.isSpace('B') && !p.isSpace('C')
    && p.trails('.') && !p.trails('B') && !p.trails(' ')
    && EndsAt(p, DOTTED, 0) && !EndsAt(p, DOTTED, 2) && EndsAt(p, DOTTED, 3) && !EndsAt(p, DOTTED, 5) && EndsAt(p, DOTTED, 6)
    && !EndsAt(p, LEFT, 0) && !EndsAt(p, LEFT, 1) && !EndsAt(p, LEFT, 2) && !EndsAt(p, LEFT, 3) && EndsAt(p, LEFT, 4)
  }

  lemma DottedSplit(p: Rules)
    requires Disagrees(p)
    ensures |CompleteSentences(p, DOTTED, 0, 0)| == 3 && Tail(p, DOTTED, 0, 0) == ""
  {
    assert RunEnd(p, DOTTED, 2) == 2 && RunEnd(p, DOTTED, 1) == 2 && RunEnd(p, DOTTED, 4) == 4 && RunEnd(p, DOTTED, 7) == 7;
    assert SkipSpace(p, DOTTED, 2) == 2 && SkipSpace(p, DOTTED, 5) == 5 && SkipSpace(p, DOTTED, 4) == 5;
    assert SkipSpace(p, DOTTED, 7) == 7;
    assert |CompleteSentences(p, DOTTED, 7, 7)| == 0 && Tail(p, DOTTED, 7, 7) == "";
    assert |CompleteSentences(p, DOTTED, 5, 6)| == 1 && Tail(p, DOTTED, 5, 6) == "";
    assert |CompleteSentences(p, DOTTED, 5, 5)| == 1 && Tail(p, DOTTED, 5, 5) == "";
    assert |CompleteSentences(p, DOTTED, 2, 3)| == 2 && Tail(p, DOTTED, 2, 3) == "";
    assert |CompleteSentences(p, DOTTED, 2, 2)| == 2 && Tail(p, DOTTED, 2, 2) == "";
  }

  lemma DottedCandidates(p: Rules)
    requires Disagrees(p)
    ensures Candidate(p, DOTTED, 1) == "!." && Candidate(p, LEFT, 1) == LEFT
  {
    assert RunEnd(p, DOTTED, 2) == 2 && RunEnd(p, DOTTED, 1) == 2;
    assert DOTTED[..2] == "!.";
    CandidateIsFirstStop(p, DOTTED, 0, 0);
    assert RunEnd(p, LEFT, 5) == 5;
    assert LEFT[..5] == LEFT;
    forall j: nat | j < 4 ensures !EndsAt(p, LEFT, j) {
      assert j == 0 || j == 1 || j == 2 || j == 3;
    }
    CandidateIsFirstStop(p, LEFT, 0, 4);
  }

  lemma NothingLeft(p: Rules)
    requires Candidate(p, DOTTED, 1) == "!." && Candidate(p, LEFT, 1) == LEFT
    ensures ExactSentences(p, DOTTED, 3) == None
  {
    assert DOTTED[2..] == LEFT && LEFT[5..] == "";
    assert ExactSentences(p, "", 1) == None;
    assert ExactSentences(p, LEFT, 2) == None;
  }

  lemma DisagreementRefuses(p: Rules)
    requires Disagrees(p)
    ensures Refuses(p, DOTTED)
  {
    DottedSplit(p);
    DottedCandidates(p);
    NothingLeft(p);
    assert DOTTED[..7] == DOTTED;
  }

  lemma LatinTables(t: P.Alphabet)
    requires Latin(t)
    ensures !t.isSpace('!') && !t.isSpace('.')
    ensures '.' in P.TERMINATORS && 'B' !in P.TERMINATORS + P.CLOSERS && ' ' !in P.TERMINATORS + P.CLOSERS
  {
  }

  lemma StandardDisagrees(t: P.Alphabet, p: Rules)
    requires Latin(t)
    requires p.isSpace == t.isSpace
    requires forall c :: p.trails(c) <==> c in P.TERMINATORS + P.CLOSERS
    requires forall i: nat | i < |DOTTED| :: EndsAt(p, DOTTED, i) <==> P.SentenceEndsAt(t, DOTTED, i)
    requires forall i: nat | i < |LEFT| :: EndsAt(p, LEFT, i) <==> P.SentenceEndsAt(t, LEFT, i)
    ensures Disagrees(p)
  {
    DottedEnds(t);
    LeftEnds(t);
    LatinTables(t);
    assert |DOTTED| == 7 && |LEFT| == 5;
  }

  /** So a tail with three complete sentences is not committed at all. */
  lemma DottedCommitRefuses(t: P.Alphabet)
    requires Latin(t)
    ensures Refuses(P.Standard(t), DOTTED)
  {
    forall text: string, i: nat | i < |text| ensures EndsAt(P.Standard(t), text, i) <==> P.SentenceEndsAt(t, text, i) {
      StandardEnds(t, text, i);
    }
    StandardDisagrees(t, P.Standard(t));
    DisagreementRefuses(P.Standard(t));
  }

  // ----- dots that end nothing ----------------------------------------------------------

  /** The characters of the examples. */
  ghost predicate Letters(t: P.Alphabet) {
    && t.isDigit('3') && t.isDigit('1') && !t.isDigit('e') && !t.isDigit('c') && t.isAlnum('e') && t.isAlnum('c')
    && !t.isAlpha(' ') && !t.isAlnum(' ') && !t.isDigit(' ')
    && t.isAlpha('D') && t.isAlpha('r') && t.lower("Dr.") == "dr." && t.isAlpha('U') && t.isUpper('U') && t.isAlpha('S') && t.isUpper('S')
    && t.isAlnum('U') && t.isAlnum('S')
    && t.isAlpha('o') && t.isAlpha('k') && !t.isUpper('o') && t.lower("ok.") == "ok."
  }

  /** A number, a domain, an abbreviation, an initialism: no dot in them ends a sentence. The
      dot behind an ordinary word does. */
  lemma DotsThatEnd(t: P.Alphabet)
    requires Letters(t)
    ensures !P.SentenceEndsAt(t, "3.1", 1) && !P.SentenceEndsAt(t, "e.c", 1)
    ensures !P.SentenceEndsAt(t, "Dr. ", 2)
    ensures !P.SentenceEndsAt(t, "U.S.", 3)
    ensures P.SentenceEndsAt(t, "ok. ", 2)
  {
    BetweenLetters(t);
    Abbreviation(t);
    Initialism(t);
    OrdinaryWord(t);
  }

  lemma BetweenLetters(t: P.Alphabet)
    requires Letters(t)
    ensures !P.SentenceEndsAt(t, "3.1", 1) && !P.SentenceEndsAt(t, "e.c", 1)
  {
  }

  lemma Abbreviation(t: P.Alphabet)
    requires Letters(t)
    ensures !P.SentenceEndsAt(t, "Dr. ", 2)
  {
    assert P.TokenStart(t, "Dr. ", 0) == 0 && P.TokenStart(t, "Dr. ", 1) == 0 && P.TokenStart(t, "Dr. ", 2) == 0;
    assert "Dr. "[0..3] == "Dr.";
  }

  lemma Initialism(t: P.Alphabet)
    requires Letters(t)
    ensures !P.SentenceEndsAt(t, "U.S.", 3)
  {
    InitialismToken(t);
  }

  lemma OrdinaryWord(t: P.Alphabet)
    requires Letters(t)
    ensures P.SentenceEndsAt(t, "ok. ", 2)
  {
    WordToken(t);
  }

  lemma InitialismToken(t: P.Alphabet)
    requires Letters(t)
    ensures P.TokenStart(t, "U.S.", 3) == 0 && P.DottedInitialism(t, "U.S.") && "U.S."[0..4] == "U.S."
  {
    assert P.TokenStart(t, "U.S.", 0) == 0 && P.TokenStart(t, "U.S.", 1) == 0 && P.TokenStart(t, "U.S.", 2) == 0;
    InitialismParts();
  }

  lemma InitialismParts()
    ensures P.NonEmpty(P.Parts("U.S.")) == ["U", "S"]
  {
    assert "U.S."[1..] == ".S." && ".S."[1..] == "S." && "S."[1..] == "." && "."[1..] == "";
    assert P.Parts("") == [""] && P.Parts(".") == ["", ""];
    assert ['S'] + "" == "S" && ["", ""][1..] == [""];
    assert P.Parts("S.") == ["S", ""] && P.Parts(".S.") == ["", "S", ""];
    assert ['U'] + "" == "U" && ["", "S", ""][1..] == ["S", ""];
    assert P.Parts("U.S.") == ["U", "S", ""];
    assert [""][1..] == [] && ["S", ""][1..] == [""] && ["U", "S", ""][1..] == ["S", ""];
    assert P.NonEmpty([]) == [] && P.NonEmpty([""]) == [] && P.NonEmpty(["S", ""]) == ["S"];
  }

  lemma WordToken(t: P.Alphabet)
    requires Letters(t)
    ensures P.TokenStart(t, "ok. ", 2) == 0 && "ok. "[0..3] == "ok." && !P.DottedInitialism(t, "ok.")
  {
    assert P.TokenStart(t, "ok. ", 0) == 0 && P.TokenStart(t, "ok. ", 1) == 0;
    assert "ok."[1..] == "k." && "k."[1..] == "." && "."[1..] == "";
    assert P.Parts("") == [""] && P.Parts(".") == ["", ""];
    assert ['k'] + "" == "k" && ['o'] + "k" == "ok" && ["", ""][1..] == [""];
    assert P.Parts("k.") == ["k", ""] && ["k", ""][1..] == [""];
    assert P.Parts("ok.") == ["ok", ""] && ["ok", ""][1..] == [""] && [""][1..] == [];
    assert P.NonEmpty([]) == [] && P.NonEmpty([""]) == [] && P.NonEmpty(["ok", ""]) == ["ok"];
  }

  /** Any other terminator always ends a sentence, wherever it stands. */
  lemma OtherTerminatorsEnd(t: P.Alphabet, text: string, i: nat)
    requires i < |text| && text[i] != '.'
    ensures P.SentenceEndsAt(t, text, i) <==> text[i] in P.TERMINATORS
    ensures EndsAt(P.Standard(t), text, i) <==> text[i] in P.TERMINATORS
  {
    StandardEnds(t, text, i);
  }
}
