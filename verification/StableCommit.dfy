/** What the stable punctuation tracker (app/asr_streaming.py) guarantees over a run. */
module StableCommit {
  import opened Pcm
  import opened Sentences
  import opened Transcript

  /** One look: the tail then and the audio time then. */
  datatype Look = Look(text: string, time: real)

  function TrackerAfter(cfg: Config, looks: seq<Look>): Tracker {
    if looks == [] then IDLE
    else
      var last := looks[|looks| - 1];
      Observe(cfg, TrackerAfter(cfg, looks[..|looks| - 1]), last.text, last.time).0
  }

  /** The tracker's candidate is that of each of the last `updates` looks, and `since` is the
      time of the first of those. */
  lemma {:induction false} TrackerRemembersLooks(cfg: Config, looks: seq<Look>)
    ensures var k := TrackerAfter(cfg, looks);
            k.candidate != "" ==>
              && 0 < k.updates <= |looks| && k.since == looks[|looks| - k.updates].time
              && forall i | |looks| - k.updates <= i < |looks| ::
                   Candidate(cfg.rules, looks[i].text, cfg.minChars) == k.candidate
    decreases |looks|
  {
    if looks != [] {
      TrackerRemembersLooks(cfg, looks[..|looks| - 1]);
    }
  }

  /** A candidate only comes out after at least two consecutive looks and at least the minimum
      number of them agreed on it, the first at least the stable time before the last. */
  lemma StableCommitIsStable(cfg: Config, looks: seq<Look>, text: string, now: real)
    requires Observe(cfg, TrackerAfter(cfg, looks), text, now).1.Some?
    ensures var c := Observe(cfg, TrackerAfter(cfg, looks), text, now).1.value;
            && c != "" && c == Candidate(cfg.rules, text, cfg.minChars) && c <= text
            && exists first ::
                 && 0 <= first < |looks| && |looks| - first + 1 >= cfg.minUpdates
                 && now - looks[first].time >= cfg.stableSeconds
                 && forall i | first <= i < |looks| :: Candidate(cfg.rules, looks[i].text, cfg.minChars) == c
  {
    TrackerRemembersLooks(cfg, looks);
    var first := |looks| - TrackerAfter(cfg, looks).updates;
    assert looks[first].time == TrackerAfter(cfg, looks).since;
  }

  // ----- and exactly when ----------------------------------------------------------------

  predicate CommitsAt(cfg: Config, looks: seq<Look>, i: nat)
    requires i < |looks|
  {
    Observe(cfg, TrackerAfter(cfg, looks[..i]), looks[i].text, looks[i].time).1.Some?
  }

  /** The looks from `first` on agree on the candidate `c`, and none of them committed. */
  ghost predicate Agreed(cfg: Config, looks: seq<Look>, first: nat, c: string) {
    && first <= |looks|
    && forall i: nat | first <= i < |looks| ::
         Candidate(cfg.rules, looks[i].text, cfg.minChars) == c && !CommitsAt(cfg, looks, i)
  }

  lemma AgreedFront(cfg: Config, looks: seq<Look>, first: nat, c: string)
    requires looks != [] && first < |looks| && Agreed(cfg, looks, first, c)
    ensures Agreed(cfg, looks[..|looks| - 1], first, c)
  {
    var front := looks[..|looks| - 1];
    forall i: nat | first <= i < |front|
      ensures Candidate(cfg.rules, front[i].text, cfg.minChars) == c && !CommitsAt(cfg, front, i)
    {
      assert front[..i] == looks[..i] && !CommitsAt(cfg, looks, i);
    }
  }

  /** The tracker has counted every look of an agreeing stretch. */
  lemma {:induction false} TrackerCountsAll(cfg: Config, looks: seq<Look>, first: nat, c: string)
    requires Stable(cfg) && c != "" && first < |looks| && Agreed(cfg, looks, first, c)
    ensures TrackerAfter(cfg, looks).candidate == c && TrackerAfter(cfg, looks).updates >= |looks| - first
    decreases |looks|
  {
    var front := looks[..|looks| - 1];
    assert !CommitsAt(cfg, looks, |looks| - 1);
    if first < |front| {
      AgreedFront(cfg, looks, first, c);
      TrackerCountsAll(cfg, front, first, c);
    }
  }

  /** And nothing else: its looks agree and none of them committed. */
  lemma {:induction false} TrackerCountsOnlyThose(cfg: Config, looks: seq<Look>)
    requires TrackerAfter(cfg, looks).candidate != ""
    ensures var k := TrackerAfter(cfg, looks);
            0 < k.updates <= |looks| && Agreed(cfg, looks, |looks| - k.updates, k.candidate)
    decreases |looks|
  {
    var front, k := looks[..|looks| - 1], TrackerAfter(cfg, looks);
    assert !CommitsAt(cfg, looks, |looks| - 1);
    if k.updates > 1 {
      TrackerCountsOnlyThose(cfg, front);
      var first: nat := |looks| - k.updates;
      forall i: nat | first <= i < |looks|
        ensures Candidate(cfg.rules, looks[i].text, cfg.minChars) == k.candidate && !CommitsAt(cfg, looks, i)
      {
        if i < |front| {
          assert front[..i] == looks[..i] && !CommitsAt(cfg, front, i);
        }
      }
    }
  }

  predicate TimesIncrease(looks: seq<Look>) {
    forall i, j | 0 <= i <= j < |looks| :: looks[i].time <= looks[j].time
  }

  /** A look at a tail commits if and only if the tail has a candidate and the looks before it
      have agreed on that candidate, without a commit, often enough and for long enough; and
      then it commits exactly that candidate. */
  lemma StableCommitExactly(cfg: Config, looks: seq<Look>, text: string, now: real)
    requires Stable(cfg) && TimesIncrease(looks)
    ensures var c := Candidate(cfg.rules, text, cfg.minChars);
            var said := Observe(cfg, TrackerAfter(cfg, looks), text, now).1;
            && (said.Some? <==>
                  c != "" && exists first: nat ::
                    && first < |looks| && Agreed(cfg, looks, first, c)
                    && |looks| - first + 1 >= cfg.minUpdates && now - looks[first].time >= cfg.stableSeconds)
            && (said.Some? ==> said.value == c)
  {
    var c := Candidate(cfg.rules, text, cfg.minChars);
    var k := TrackerAfter(cfg, looks);
    if Observe(cfg, k, text, now).1.Some? {
      TrackerRemembersLooks(cfg, looks);
      TrackerCountsOnlyThose(cfg, looks);
      var first: nat := |looks| - k.updates;
      assert Agreed(cfg, looks, first, c) && looks[first].time == k.since;
    }
    if c != "" {
      forall first: nat | first < |looks| && Agreed(cfg, looks, first, c)
                          && |looks| - first + 1 >= cfg.minUpdates && now - looks[first].time >= cfg.stableSeconds
        ensures Observe(cfg, k, text, now).1 == Some(c)
      {
        TrackerCountsAll(cfg, looks, first, c);
        TrackerRemembersLooks(cfg, looks);
      }
    }
  }
}
