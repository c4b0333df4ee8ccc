/** When committing on punctuation (app/asr_streaming.py) commits, and what it announces. The
    splitter reads the whole tail, but the stretches that are announced are searched for in
    what is left after cutting the earlier ones off; rules that look around a dot can then
    disagree with themselves. */
module ImmediateCommit {
  import opened Pcm
  import opened Sentences
  import P = Punctuation
  import T = Transcript

  /** The part of the tail that a commit would confirm. */
  function Prefix(p: Rules, text: string): string {
    text[..|text| - |Tail(p, text, 0, 0)|]
  }

  // ----- refusal, exactly ---------------------------------------------------------------

  /** The stretches the candidate search cuts a text into when each is searched for alone,
      what is left at the end included. */
  function Alone(p: Rules, s: string): (r: seq<string>)
    ensures s != "" <==> r != []
    ensures forall i | 0 <= i < |r| :: r[i] != ""
    decreases |s|
  {
    if s == "" then []
    else
      var first := Candidate(p, s, 1);
      if first == "" then [s] else [first] + Alone(p, s[|first|..])
  }

  lemma {:induction false} AloneTiles(p: Rules, s: string)
    ensures Joined(Alone(p, s)) == s
    decreases |s|
  {
    if s != "" {
      var first := Candidate(p, s, 1);
      if first == "" {
        assert [s][..0] == [];
      } else {
        AloneTiles(p, s[|first|..]);
        JoinedCons(first, Alone(p, s[|first|..]));
      }
    }
  }

  lemma {:induction false} EnoughStretches(p: Rules, s: string, n: nat)
    ensures ExactSentences(p, s, n).Some? <==> n <= |Alone(p, s)|
    decreases n
  {
    if n > 1 && s != "" {
      var first := Candidate(p, s, 1);
      if first != "" {
        EnoughStretches(p, s[|first|..], n - 1);
      }
    }
  }

  /** The tail holds complete sentences, and yet none is committed. */
  predicate Refuses(p: Rules, text: string) {
    var sentences := CompleteSentences(p, text, 0, 0);
    sentences != [] && ExactSentences(p, Prefix(p, text), |sentences|).None?
  }

  /** That is so exactly when the search, stretch by stretch, cuts the prefix into fewer
      stretches than the splitter finds sentences. */
  lemma RefusesExactly(p: Rules, text: string)
    ensures Refuses(p, text) <==> |Alone(p, Prefix(p, text))| < |CompleteSentences(p, text, 0, 0)|
  {
    EnoughStretches(p, Prefix(p, text), |CompleteSentences(p, text, 0, 0)|);
  }

  /** On the transcript: an immediate commit does nothing exactly when there is no complete
      sentence or too few stretches. */
  lemma CommitsExactly(cfg: T.Config, s: T.State)
    ensures var n := |CompleteSentences(cfg.rules, s.partial, 0, 0)|;
            T.CommitSentences(cfg, s) == T.Outcome(s, [], false)
            <==> n == 0 || |Alone(cfg.rules, Prefix(cfg.rules, s.partial))| < n
  {
    var n := |CompleteSentences(cfg.rules, s.partial, 0, 0)|;
    EnoughStretches(cfg.rules, Prefix(cfg.rules, s.partial), n);
  }

  // ----- the first stretch of a text ----------------------------------------------------

  /** Read on its own, the text's first sentence stops at `n`. */
  ghost predicate StopsFirstAt(p: Rules, s: string, n: nat) {
    exists j: nat | j < |s| :: FirstEnd(p, s, j) && Stop(p, s, j) == n
  }

  ghost predicate FirstEnd(p: Rules, s: string, j: nat) {
    EndsAt(p, s, j) && forall i | 0 <= i < j :: !EndsAt(p, s, i)
  }

  lemma {:induction false} CandidateIsFirstStop(p: Rules, s: string, index: nat, i: nat)
    requires index <= i && EndsAt(p, s, i) && forall j | index <= j < i :: !EndsAt(p, s, j)
    ensures CandidateFrom(p, s, 1, index) == s[..Stop(p, s, i)]
    decreases i - index
  {
    if index < i {
      CandidateIsFirstStop(p, s, index + 1, i);
    } else {
      var first := s[..Stop(p, s, i)];
      assert first[i] in first;
    }
  }

  lemma {:induction false} NoEndNoCandidate(p: Rules, s: string, index: nat)
    requires index <= |s| && forall j | index <= j < |s| :: !EndsAt(p, s, j)
    ensures CandidateFrom(p, s, 1, index) == ""
    decreases |s| - index
  {
    if index < |s| {
      NoEndNoCandidate(p, s, index + 1);
    }
  }

  /** The candidate search finds exactly the first stretch. */
  lemma CandidateStopsFirst(p: Rules, s: string, n: nat)
    ensures StopsFirstAt(p, s, n) <==> n > 0 && |Candidate(p, s, 1)| == n
  {
    if j: nat :| j < |s| && FirstEnd(p, s, j) {
      CandidateIsFirstStop(p, s, 0, j);
      forall k: nat | k < |s| && FirstEnd(p, s, k) ensures k == j {
      }
    } else {
      if k :| 0 <= k < |s| && EndsAt(p, s, k) {
        LeastEnd(p, s, k);
      }
      NoEndNoCandidate(p, s, 0);
    }
  }

  lemma {:induction false} LeastEnd(p: Rules, s: string, k: nat)
    requires k < |s| && EndsAt(p, s, k)
    ensures exists j: nat | j < |s| :: FirstEnd(p, s, j)
    decreases k
  {
    if i :| 0 <= i < k && EndsAt(p, s, i) {
      LeastEnd(p, s, i);
    } else {
      assert FirstEnd(p, s, k);
    }
  }

  // ----- runs in slices -----------------------------------------------------------------

  lemma {:induction false} RunEndInSlice(p: Rules, text: string, q: nat, e: nat, from: nat)
    requires q <= from <= e <= |text|
    ensures RunEnd(p, text[q..e], from - q) == Min(RunEnd(p, text, from), e) - q
    decreases e - from
  {
    if from < e && p.trails(text[from]) {
      RunEndInSlice(p, text, q, e, from + 1);
    }
  }

  lemma {:induction false} RunEndThrough(p: Rules, text: string, from: nat, k: nat)
    requires from <= k < |text| && k < RunEnd(p, text, from)
    ensures RunEnd(p, text, k + 1) == RunEnd(p, text, from)
    decreases k - from
  {
    if from < k {
      RunEndThrough(p, text, from + 1, k);
    }
  }

  // ----- what stripping keeps -----------------------------------------------------------

  lemma {:induction false} SkipSpaceInPrefix(p: Rules, s: string, m: nat, from: nat)
    requires from <= m <= |s| && SkipSpace(p, s, from) < m
    ensures SkipSpace(p, s[..m], from) == SkipSpace(p, s, from)
    decreases |s| - from
  {
    if p.isSpace(s[from]) {
      SkipSpaceInPrefix(p, s, m, from + 1);
    }
  }

  lemma {:induction false} SkipSpaceStops(p: Rules, s: string, from: nat, k: nat)
    requires from <= k < |s| && !p.isSpace(s[k])
    ensures SkipSpace(p, s, from) <= k
    decreases k - from
  {
    if from < k {
      SkipSpaceStops(p, s, from + 1, k);
    }
  }

  /** Stripping takes the leading white space off and keeps every visible character. */
  lemma {:induction false} StripIsStretch(p: Rules, s: string, k: nat) returns (z: nat)
    requires k < |s| && !p.isSpace(s[k])
    ensures SkipSpace(p, s, 0) <= k < z <= |s| && Strip(p, s) == s[SkipSpace(p, s, 0)..z]
    decreases |s|
  {
    SkipSpaceStops(p, s, 0, k);
    if p.isSpace(s[0]) {
      z := StripIsStretch(p, s[1..], k - 1);
      SkipSpaceShift(p, s, 1);
      z := z + 1;
    } else if p.isSpace(s[|s| - 1]) {
      z := StripIsStretch(p, s[..|s| - 1], k);
    } else {
      z := |s|;
    }
  }

  lemma {:induction false} SkipSpaceShift(p: Rules, s: string, from: nat)
    requires 1 <= from <= |s|
    ensures SkipSpace(p, s[1..], from - 1) + 1 == SkipSpace(p, s, from)
    decreases |s| - from
  {
    if from < |s| && p.isSpace(s[from]) {
      SkipSpaceShift(p, s, from + 1);
    }
  }

  /** Two beginnings of a text that strip to the same string reach equally far. */
  lemma SameStripSameReach(p: Rules, s: string, m: nat, n: nat, u: nat, i: nat)
    requires u < m <= |s| && i < n <= |s| && !p.isSpace(s[u]) && !p.isSpace(s[i])
    requires Strip(p, s[..m]) == Strip(p, s[..n])
    ensures i < m && u < n
  {
    var y := StripIsStretch(p, s[..m], u);
    var z := StripIsStretch(p, s[..n], i);
    SkipSpaceStops(p, s, 0, u);
    SkipSpaceStops(p, s, 0, i);
    SkipSpaceInPrefix(p, s, m, 0);
    SkipSpaceInPrefix(p, s, n, 0);
    assert |Strip(p, s[..m])| == y - SkipSpace(p, s, 0) && |Strip(p, s[..n])| == z - SkipSpace(p, s, 0);
  }

}
