/** The batching adapters (app/asr_faster_whisper.py, app/asr_sensevoice.py): a batch of jobs
    from different sessions is validated, its audio is added to the sessions, the jobs are
    grouped by what the engine can decode together, and the results are put back in order. */
module Adapter {
  import opened Pcm

  datatype Flavour = FasterWhisper | SenseVoice

  datatype Config = Config(
    flavour: Flavour,
    maxItems: nat,
    maxSegment: nat,
    partialBeam: int,
    finalBeam: int,
    languages: set<string>)

  datatype Decoded = Decoded(text: string, language: string)

  /** The engine: audio clips, the language if it is known, and a beam size. */
  type Engine = (seq<Audio>, Option<string>, int) -> seq<Decoded>

  /** The engine decodes every clip by itself, whatever else is in the batch. */
  ghost predicate Pointwise(e: Engine) {
    && (forall clips, language, beam :: |e(clips, language, beam)| == |clips|)
    && (forall clips, language, beam, i :: 0 <= i < |clips| ==>
          e(clips, language, beam)[i] == e([clips[i]], language, beam)[0])
  }

  datatype SessionState = SessionState(
    backend: string,
    language: Option<string>,
    pcm: Audio,
    partialText: string,
    cachedFinal: Option<string>)

  datatype Work = Work(session: string, backend: string, samples: int, pcm: Audio, final: bool)

  datatype Reply = Reply(work: Work, text: string)

  datatype Error =
    | NotReady
    | UnsupportedTask
    | TimestampsDisabled
    | UnsupportedLanguage
    | BatchSize
    | StaleSession
    | StaleBackend
    | DuplicateSession
    | UtteranceLimit
    | ResultCount

  // ----- one job ------------------------------------------------------------------------

  function Heard(st: SessionState, w: Work): SessionState {
    st.(pcm := st.pcm + w.pcm)
  }

  /** What the engine listens to: faster-whisper decodes partial jobs chunk by chunk, and
      everything else over the whole segment. */
  function Waveform(cfg: Config, heard: SessionState, w: Work): Audio {
    if cfg.flavour.FasterWhisper? && !w.final then w.pcm else heard.pcm
  }

  datatype Key = Key(language: Option<string>, beam: int)

  function KeyOf(cfg: Config, heard: SessionState, w: Work): Key {
    Key(heard.language, if cfg.flavour.SenseVoice? then 0 else if w.final then cfg.finalBeam else cfg.partialBeam)
  }

  predicate Ascii(c: char) {
    c as int < 128
  }

  /** Joins two pieces of transcript, with a space only between two ASCII characters. */
  function AppendTranscript(current: string, incoming: string): (r: string)
    ensures current == "" ==> r == incoming
    ensures incoming == "" ==> r == current
    ensures current <= r && |r| <= |current| + |incoming| + 1
    ensures current != "" && incoming != "" ==>
              r == current + (if Ascii(current[|current| - 1]) && Ascii(incoming[0]) then " " else "") + incoming
    ensures incoming <= r[|r| - |incoming|..]
  {
    if current == "" then incoming
    else if incoming == "" then current
    else current + (if Ascii(current[|current| - 1]) && Ascii(incoming[0]) then " " else "") + incoming
  }

  function Learned(cfg: Config, st: SessionState, item: Decoded): SessionState {
    if st.language.None? && (cfg.flavour.FasterWhisper? || item.language in cfg.languages)
    then st.(language := Some(item.language)) else st
  }

  function Committed(cfg: Config, heard: SessionState, w: Work, item: Decoded): (r: SessionState)
    ensures r.pcm == heard.pcm
  {
    var st := Learned(cfg, heard, item);
    if w.final then st.(cachedFinal := Some(item.text))
    else if cfg.flavour.SenseVoice? then st
    else st.(partialText := AppendTranscript(st.partialText, item.text))
  }

  function TextOf(cfg: Config, heard: SessionState, w: Work, item: Decoded): string {
    if w.final || cfg.flavour.SenseVoice? then item.text else AppendTranscript(heard.partialText, item.text)
  }

  function DecodeOne(cfg: Config, e: Engine, heard: SessionState, w: Work): Option<Decoded> {
    var items := e([Waveform(cfg, heard, w)], KeyOf(cfg, heard, w).language, KeyOf(cfg, heard, w).beam);
    if |items| == 1 then Some(items[0]) else None
  }

  /** What a job gets when it is decoded alone. */
  ghost function Alone(cfg: Config, e: Engine, heard: SessionState, w: Work): (item: Decoded)
    requires Pointwise(e)
    ensures DecodeOne(cfg, e, heard, w) == Some(item)
  {
    var clips := [Waveform(cfg, heard, w)];
    assert |e(clips, KeyOf(cfg, heard, w).language, KeyOf(cfg, heard, w).beam)| == |clips|;
    DecodeOne(cfg, e, heard, w).value
  }

  // ----- one at a time ------------------------------------------------------------------

  /** The jobs one after the other, each decoded alone: what a batch has to amount to. */
  ghost function Serial(cfg: Config, e: Engine, sessions: map<string, SessionState>, works: seq<Work>):
    (map<string, SessionState>, seq<Reply>)
    requires Pointwise(e)
  {
    if works == [] then (sessions, [])
    else
      SerialStep(cfg, e, Serial(cfg, e, sessions, works[..|works| - 1]), works[|works| - 1])
  }

  ghost function SerialStep(cfg: Config, e: Engine, before: (map<string, SessionState>, seq<Reply>), w: Work):
    (map<string, SessionState>, seq<Reply>)
    requires Pointwise(e)
  {
    if w.session !in before.0 then before
    else
      var heard := Heard(before.0[w.session], w);
      var item := Alone(cfg, e, heard, w);
      (before.0[w.session := Committed(cfg, heard, w, item)], before.1 + [Reply(w, TextOf(cfg, heard, w, item))])
  }

  // ----- validation ---------------------------------------------------------------------

  function Problem(cfg: Config, sessions: map<string, SessionState>, works: seq<Work>, i: nat): Option<Error>
    requires i < |works|
  {
    var w := works[i];
    if w.session !in sessions then Some(StaleSession)
    else if sessions[w.session].backend != w.backend then Some(StaleBackend)
    else if exists j | 0 <= j < i :: works[j].session == w.session then Some(DuplicateSession)
    else if |sessions[w.session].pcm| + w.samples > cfg.maxSegment then Some(UtteranceLimit)
    else None
  }

  ghost predicate Acceptable(cfg: Config, sessions: map<string, SessionState>, works: seq<Work>, n: nat)
    requires n <= |works|
  {
    forall i | 0 <= i < n :: Problem(cfg, sessions, works, i).None?
  }

  // ----- what has been done to the first jobs -------------------------------------------

  /** The first `n` jobs have been heard, and nothing else has happened. */
  ghost predicate HeardUpTo(before: map<string, SessionState>, now: map<string, SessionState>, works: seq<Work>, n: nat)
    requires n <= |works| && forall i | 0 <= i < |works| :: works[i].session in before
  {
    && now.Keys == before.Keys
    && (forall i | 0 <= i < n :: now[works[i].session] == Heard(before[works[i].session], works[i]))
    && (forall s | s in before && (forall i | 0 <= i < n :: works[i].session != s) :: now[s] == before[s])
  }

  ghost function Item(cfg: Config, e: Engine, before: map<string, SessionState>, w: Work): Decoded
    requires Pointwise(e) && w.session in before
  {
    Alone(cfg, e, Heard(before[w.session], w), w)
  }

  /** The session and the reply are those of the job decoded alone. */
  ghost predicate DoneAlone(cfg: Config, e: Engine, before: map<string, SessionState>, w: Work, st: SessionState, reply: Reply)
    requires Pointwise(e) && w.session in before
  {
    var heard, item := Heard(before[w.session], w), Item(cfg, e, before, w);
    st == Committed(cfg, heard, w, item) && reply == Reply(w, TextOf(cfg, heard, w, item))
  }

  /** The first `n` jobs have been decoded alone and committed; the rest is as it was. */
  ghost predicate DoneUpTo(cfg: Config, e: Engine, before: map<string, SessionState>, rest: map<string, SessionState>,
                           now: map<string, SessionState>, replies: seq<Reply>, works: seq<Work>, n: nat)
    requires Pointwise(e) && n <= |works| && rest.Keys == before.Keys
    requires forall i | 0 <= i < |works| :: works[i].session in before
  {
    && now.Keys == before.Keys && |replies| == n
    && (forall i | 0 <= i < n :: DoneAlone(cfg, e, before, works[i], now[works[i].session], replies[i]))
    && (forall s | s in before && (forall i | 0 <= i < n :: works[i].session != s) :: now[s] == rest[s])
  }

  ghost predicate GoodItems(cfg: Config, e: Engine, before: map<string, SessionState>, works: seq<Work>, items: seq<Option<Decoded>>)
    requires |items| == |works| && forall i | 0 <= i < |works| :: works[i].session in before
  {
    Pointwise(e) && forall i | 0 <= i < |works| :: items[i] == Some(Item(cfg, e, before, works[i]))
  }

  /** Jobs that carry as many samples as they say, as jobs built from a reservation do. */
  predicate Honest(works: seq<Work>) {
    forall i | 0 <= i < |works| :: works[i].samples == |works[i].pcm|
  }

  ghost predicate Distinct(works: seq<Work>) {
    forall i, j | 0 <= i < j < |works| :: works[i].session != works[j].session
  }

  lemma AcceptableIsDistinct(cfg: Config, sessions: map<string, SessionState>, works: seq<Work>)
    requires Acceptable(cfg, sessions, works, |works|)
    ensures Distinct(works) && forall i | 0 <= i < |works| :: works[i].session in sessions
  {
    forall j | 0 <= j < |works|
      ensures works[j].session in sessions && forall i | 0 <= i < j :: works[i].session != works[j].session
    {
      assert Problem(cfg, sessions, works, j).None?;
    }
  }

  /** One at a time, every job finds its session untouched by the jobs before it. */
  lemma {:induction false} SerialIsPointwise(cfg: Config, e: Engine, before: map<string, SessionState>, works: seq<Work>, n: nat)
    requires Pointwise(e) && n <= |works| && Distinct(works)
    requires forall i | 0 <= i < |works| :: works[i].session in before
    ensures DoneUpTo(cfg, e, before, before, Serial(cfg, e, before, works[..n]).0, Serial(cfg, e, before, works[..n]).1, works, n)
    decreases n
  {
    if n > 0 {
      SerialIsPointwise(cfg, e, before, works, n - 1);
      assert works[..n][..n - 1] == works[..n - 1];
      StepIsPointwise(cfg, e, before, Serial(cfg, e, before, works[..n - 1]), works, n - 1);
    }
  }

  lemma StepIsPointwise(cfg: Config, e: Engine, before: map<string, SessionState>, so: (map<string, SessionState>, seq<Reply>),
                        works: seq<Work>, n: nat)
    requires Pointwise(e) && n < |works| && Distinct(works)
    requires forall i | 0 <= i < |works| :: works[i].session in before
    requires DoneUpTo(cfg, e, before, before, so.0, so.1, works, n)
    ensures var after := SerialStep(cfg, e, so, works[n]);
            DoneUpTo(cfg, e, before, before, after.0, after.1, works, n + 1)
  {
    AloneNext(cfg, e, before, so.0, so.1, works, n);
  }

  lemma AloneNext(cfg: Config, e: Engine, before: map<string, SessionState>, now: map<string, SessionState>,
                  replies: seq<Reply>, works: seq<Work>, n: nat)
    requires Pointwise(e) && n < |works| && Distinct(works)
    requires forall i | 0 <= i < |works| :: works[i].session in before
    requires DoneUpTo(cfg, e, before, before, now, replies, works, n)
    ensures var w := works[n]; var heard := Heard(now[w.session], w); var item := Alone(cfg, e, heard, w);
            DoneUpTo(cfg, e, before, before, now[w.session := Committed(cfg, heard, w, item)],
                     replies + [Reply(w, TextOf(cfg, heard, w, item))], works, n + 1)
  {
    var w := works[n];
    assert now[w.session] == before[w.session];
    var heard, item := Heard(now[w.session], w), Item(cfg, e, before, w);
    var st, reply := Committed(cfg, heard, w, item), Reply(w, TextOf(cfg, heard, w, item));
    assert DoneAlone(cfg, e, before, w, st, reply);
    DoneExtends(cfg, e, before, before, now, replies, works, n, st, reply);
  }

  /** Committing the next job's item. */
  lemma DoneNext(cfg: Config, e: Engine, before: map<string, SessionState>, heard: map<string, SessionState>,
                 now: map<string, SessionState>, replies: seq<Reply>, works: seq<Work>, n: nat, item: Decoded)
    requires Pointwise(e) && n < |works| && Distinct(works) && heard.Keys == before.Keys
    requires forall i | 0 <= i < |works| :: works[i].session in before
    requires heard[works[n].session] == Heard(before[works[n].session], works[n])
    requires DoneUpTo(cfg, e, before, heard, now, replies, works, n)
    requires item == Item(cfg, e, before, works[n])
    ensures var w := works[n]; var st := now[w.session];
            DoneUpTo(cfg, e, before, heard, now[w.session := Committed(cfg, st, w, item)],
                     replies + [Reply(w, TextOf(cfg, st, w, item))], works, n + 1)
  {
    var w := works[n];
    assert now[w.session] == heard[w.session];
    var st, reply := Committed(cfg, now[w.session], w, item), Reply(w, TextOf(cfg, now[w.session], w, item));
    assert DoneAlone(cfg, e, before, w, st, reply);
    DoneExtends(cfg, e, before, heard, now, replies, works, n, st, reply);
  }

  lemma DoneExtends(cfg: Config, e: Engine, before: map<string, SessionState>, rest: map<string, SessionState>,
                    now: map<string, SessionState>, replies: seq<Reply>, works: seq<Work>, n: nat, st: SessionState, reply: Reply)
    requires Pointwise(e) && n < |works| && Distinct(works) && rest.Keys == before.Keys
    requires forall i | 0 <= i < |works| :: works[i].session in before
    requires DoneUpTo(cfg, e, before, rest, now, replies, works, n)
    requires DoneAlone(cfg, e, before, works[n], st, reply)
    ensures DoneUpTo(cfg, e, before, rest, now[works[n].session := st], replies + [reply], works, n + 1)
  {
    var t, rs := now[works[n].session := st], replies + [reply];
    forall i | 0 <= i < n + 1 ensures DoneAlone(cfg, e, before, works[i], t[works[i].session], rs[i]) {
      if i < n {
        assert works[i].session != works[n].session && rs[i] == replies[i];
      }
    }
  }

  /** Two outcomes with the same description are the same. */
  lemma DoneIsUnique(cfg: Config, e: Engine, before: map<string, SessionState>, works: seq<Work>,
                     rest: map<string, SessionState>, a: map<string, SessionState>, b: map<string, SessionState>,
                     ra: seq<Reply>, rb: seq<Reply>)
    requires Pointwise(e) && rest.Keys == before.Keys && forall i | 0 <= i < |works| :: works[i].session in before
    requires HeardUpTo(before, rest, works, |works|)
    requires DoneUpTo(cfg, e, before, rest, a, ra, works, |works|)
    requires DoneUpTo(cfg, e, before, before, b, rb, works, |works|)
    ensures a == b && ra == rb
  {
    forall s | s in before ensures a[s] == b[s] {
      if i :| 0 <= i < |works| && works[i].session == s {
      } else {
        assert a[s] == rest[s] == before[s] == b[s];
      }
    }
  }

  // ----- grouping -----------------------------------------------------------------------

  datatype Group = Group(key: Key, members: seq<nat>)

  predicate InSomeGroup(groups: seq<Group>, i: nat) {
    exists g | 0 <= g < |groups| :: i in groups[g].members
  }

  /** Every one of the first `n` jobs is in a group, and every group's members share its key. */
  ghost predicate Grouped(cfg: Config, heard: map<string, SessionState>, works: seq<Work>, groups: seq<Group>, n: nat)
    requires n <= |works| && forall i | 0 <= i < |works| :: works[i].session in heard
  {
    && (forall i | 0 <= i < n :: InSomeGroup(groups, i))
    && (forall g, k | 0 <= g < |groups| && 0 <= k < |groups[g].members| ::
          && groups[g].members[k] < n
          && KeyOf(cfg, heard[works[groups[g].members[k]].session], works[groups[g].members[k]]) == groups[g].key)
  }

  /** The engine, called once for a group, gives every member what it would get alone. */
  lemma GroupDecodesAlone(cfg: Config, e: Engine, heard: map<string, SessionState>, works: seq<Work>,
                          group: Group, clips: seq<Audio>, k: nat)
    requires Pointwise(e) && k < |group.members| == |clips| && group.members[k] < |works|
    requires works[group.members[k]].session in heard
    requires var w := works[group.members[k]];
             clips[k] == Waveform(cfg, heard[w.session], w) && KeyOf(cfg, heard[w.session], w) == group.key
    ensures var w := works[group.members[k]];
            && k < |e(clips, group.key.language, group.key.beam)|
            && DecodeOne(cfg, e, heard[w.session], w) == Some(e(clips, group.key.language, group.key.beam)[k])
  {
    assert |e(clips, group.key.language, group.key.beam)| == |clips|;
    assert |e([clips[k]], group.key.language, group.key.beam)| == 1;
  }

  // ----- committing ---------------------------------------------------------------------

  ghost predicate SameAudio(a: map<string, SessionState>, b: map<string, SessionState>) {
    a.Keys == b.Keys && forall s | s in a :: a[s].pcm == b[s].pcm
  }

  /** Puts the decoded items into the sessions, in job order. */
  method CommitAll(cfg: Config, ghost e: Engine, ghost before: map<string, SessionState>, heard: map<string, SessionState>,
                   works: seq<Work>, items: seq<Option<Decoded>>)
    returns (now: map<string, SessionState>, replies: Option<seq<Reply>>)
    requires |items| == |works| && Distinct(works)
    requires forall i | 0 <= i < |works| :: works[i].session in before
    requires HeardUpTo(before, heard, works, |works|)
    ensures SameAudio(now, heard)
    ensures GoodItems(cfg, e, before, works, items) ==>
              replies.Some? && DoneUpTo(cfg, e, before, heard, now, replies.value, works, |works|)
  {
    now := heard;
    ghost var good := GoodItems(cfg, e, before, works, items);
    var so: seq<Reply> := [];
    for n := 0 to |works|
      invariant SameAudio(now, heard)
      invariant good ==> DoneUpTo(cfg, e, before, heard, now, so, works, n)
    {
      if items[n].None? {
        return now, None;
      }
      var w, item := works[n], items[n].value;
      if good {
        DoneNext(cfg, e, before, heard, now, so, works, n, item);
      }
      var st := now[w.session];
      so := so + [Reply(w, TextOf(cfg, st, w, item))];
      now := now[w.session := Committed(cfg, st, w, item)];
    }
    replies := Some(so);
  }

  // ----- the adapter --------------------------------------------------------------------

  class BatchAdapter {
    const cfg: Config
    const engine: Engine
    var ready: bool
    var sessions: map<string, SessionState>

    /** No segment is longer than the limit. */
    ghost predicate Bounded()
      reads this
    {
      forall s | s in sessions :: |sessions[s].pcm| <= cfg.maxSegment
    }

    constructor (cfg: Config, engine: Engine)
      ensures this.cfg == cfg && this.engine == engine && !ready && sessions == map[]
    {
      this.cfg, this.engine, ready, sessions := cfg, engine, false, map[];
    }

    method Warmup()
      modifies this`ready
      ensures ready
    {
      ready := true;
    }

    /** Why a session cannot be opened, in the order of the checks. */
    function OpenProblem(session: string, language: string, task: string, timestamps: bool): Option<Error>
      reads this
    {
      if !ready then Some(NotReady)
      else if task != "transcribe" then Some(UnsupportedTask)
      else if timestamps then Some(TimestampsDisabled)
      else if cfg.flavour.SenseVoice? && (if language == "" then "auto" else language) !in cfg.languages then Some(UnsupportedLanguage)
      else if session in sessions then Some(DuplicateSession)
      else None
    }

    /** A language that is to be detected: none given, or `auto`. An empty one counts as given
        to faster-whisper and as none to SenseVoice. */
    function Requested(language: Option<string>): Option<string> {
      if language.None? || language.value == "auto" || (cfg.flavour.SenseVoice? && language.value == "") then None else language
    }

    function BackendId(session: string): string {
      (if cfg.flavour.FasterWhisper? then "fw-" else "sv-") + session
    }

    method OpenSession(session: string, language: Option<string>, task: string, timestamps: bool)
      returns (r: Result<string, Error>)
      modifies this`sessions
      ensures old(Bounded()) ==> Bounded()
      ensures match old(OpenProblem(session, if language.None? then "" else language.value, task, timestamps))
              case Some(problem) => r == Err(problem) && sessions == old(sessions)
              case None =>
                && r == Ok(BackendId(session))
                && sessions == old(sessions)[session := SessionState(BackendId(session), Requested(language), [], "", None)]
    {
      if !ready {
        return Err(NotReady);
      }
      if task != "transcribe" {
        return Err(UnsupportedTask);
      }
      if timestamps {
        return Err(TimestampsDisabled);
      }
      if cfg.flavour.SenseVoice? {
        var normalized := if language.None? || language.value == "" then "auto" else language.value;
        if normalized !in cfg.languages {
          return Err(UnsupportedLanguage);
        }
      }
      if session in sessions {
        return Err(DuplicateSession);
      }
      sessions := sessions[session := SessionState(BackendId(session), Requested(language), [], "", None)];
      return Ok(BackendId(session));
    }

    /** The validation loop stops at the first job that has a problem. */
    method Validate(works: seq<Work>) returns (problem: Option<Error>)
      ensures problem.None? ==> Acceptable(cfg, sessions, works, |works|)
      ensures problem.Some? ==> exists n :: 0 <= n < |works| && Acceptable(cfg, sessions, works, n)
                                            && Problem(cfg, sessions, works, n) == problem
    {
      var seen: set<string> := {};
      for n := 0 to |works|
        invariant forall s :: s in seen <==> exists j :: 0 <= j < n && works[j].session == s
        invariant Acceptable(cfg, sessions, works, n)
      {
        var w := works[n];
        ghost var verdict := Problem(cfg, sessions, works, n);
        if w.session !in sessions {
          assert verdict == Some(StaleSession);
          return Some(StaleSession);
        }
        if sessions[w.session].backend != w.backend {
          assert verdict == Some(StaleBackend);
          return Some(StaleBackend);
        }
        if w.session in seen {
          assert verdict == Some(DuplicateSession);
          return Some(DuplicateSession);
        }
        if |sessions[w.session].pcm| + w.samples > cfg.maxSegment {
          assert verdict == Some(UtteranceLimit);
          return Some(UtteranceLimit);
        }
        seen := seen + {w.session};
      }
      return None;
    }

    method Extend(works: seq<Work>)
      requires Distinct(works) && forall i | 0 <= i < |works| :: works[i].session in sessions
      modifies this`sessions
      ensures HeardUpTo(old(sessions), sessions, works, |works|)
    {
      for n := 0 to |works|
        invariant HeardUpTo(old(sessions), sessions, works, n)
      {
        var w := works[n];
        assert sessions[w.session] == old(sessions)[w.session];
        sessions := sessions[w.session := Heard(sessions[w.session], w)];
      }
    }

    method GroupByKey(works: seq<Work>) returns (groups: seq<Group>)
      requires forall i | 0 <= i < |works| :: works[i].session in sessions
      ensures Grouped(cfg, sessions, works, groups, |works|)
    {
      groups := [];
      for n := 0 to |works|
        invariant Grouped(cfg, sessions, works, groups, n)
      {
        var key := KeyOf(cfg, sessions[works[n].session], works[n]);
        var g := 0;
        while g < |groups| && groups[g].key != key
          invariant 0 <= g <= |groups|
        {
          g := g + 1;
        }
        ghost var before := groups;
        if g < |groups| {
          groups := groups[g := groups[g].(members := groups[g].members + [n])];
        } else {
          groups := groups + [Group(key, [n])];
        }
        assert n in groups[g].members;
        forall i | 0 <= i < n + 1 ensures InSomeGroup(groups, i) {
          if i < n {
            assert InSomeGroup(before, i);
            var h :| 0 <= h < |before| && i in before[h].members;
            assert i in groups[h].members;
          }
        }
      }
    }

    /** One engine call a group, results scattered to their places. */
    method DecodeGroups(works: seq<Work>, groups: seq<Group>) returns (decoded: Option<seq<Option<Decoded>>>)
      requires forall i | 0 <= i < |works| :: works[i].session in sessions
      requires Grouped(cfg, sessions, works, groups, |works|)
      ensures decoded.Some? ==> |decoded.value| == |works|
      ensures Pointwise(engine) ==>
                decoded.Some? && forall i | 0 <= i < |works| :: Right(works, decoded.value, i)
    {
      var slots: seq<Option<Decoded>> := seq(|works|, i => None);
      for g := 0 to |groups|
        invariant |slots| == |works|
        invariant Pointwise(engine) ==>
          forall h, k | 0 <= h < g && 0 <= k < |groups[h].members| ::
            Right(works, slots, groups[h].members[k])
      {
        var group := groups[g];
        var clips := ClipsOf(works, group);
        var items := engine(clips, group.key.language, group.key.beam);
        if |items| != |group.members| {
          return None;
        }
        slots := Scatter(works, group, clips, items, slots);
      }
      forall i | 0 <= i < |works| && Pointwise(engine) ensures Right(works, slots, i) {
        assert InSomeGroup(groups, i);
        var g :| 0 <= g < |groups| && i in groups[g].members;
        var k :| 0 <= k < |groups[g].members| && groups[g].members[k] == i;
      }
      return Some(slots);
    }

    method ClipsOf(works: seq<Work>, group: Group) returns (clips: seq<Audio>)
      requires forall i | 0 <= i < |works| :: works[i].session in sessions
      requires forall k | 0 <= k < |group.members| :: group.members[k] < |works|
      ensures |clips| == |group.members|
      ensures forall k | 0 <= k < |clips| ::
                clips[k] == Waveform(cfg, sessions[works[group.members[k]].session], works[group.members[k]])
    {
      clips := [];
      for k := 0 to |group.members|
        invariant |clips| == k
        invariant forall l | 0 <= l < k ::
                    clips[l] == Waveform(cfg, sessions[works[group.members[l]].session], works[group.members[l]])
      {
        var w := works[group.members[k]];
        clips := clips + [Waveform(cfg, sessions[w.session], w)];
      }
    }

    ghost predicate Right(works: seq<Work>, slots: seq<Option<Decoded>>, i: nat)
      requires |slots| == |works| && i < |works| && works[i].session in sessions
      reads this
    {
      slots[i].Some? && slots[i] == DecodeOne(cfg, engine, sessions[works[i].session], works[i])
    }

    method Scatter(works: seq<Work>, group: Group, clips: seq<Audio>, items: seq<Decoded>, slots: seq<Option<Decoded>>)
      returns (r: seq<Option<Decoded>>)
      requires |slots| == |works| && |items| == |group.members| == |clips|
      requires items == engine(clips, group.key.language, group.key.beam)
      requires forall i | 0 <= i < |works| :: works[i].session in sessions
      requires forall k | 0 <= k < |group.members| ::
                 && group.members[k] < |works|
                 && clips[k] == Waveform(cfg, sessions[works[group.members[k]].session], works[group.members[k]])
                 && KeyOf(cfg, sessions[works[group.members[k]].session], works[group.members[k]]) == group.key
      ensures |r| == |works|
      ensures Pointwise(engine) ==>
                && (forall k | 0 <= k < |group.members| :: Right(works, r, group.members[k]))
                && (forall i | 0 <= i < |works| && Right(works, slots, i) :: Right(works, r, i))
    {
      r := slots;
      for k := 0 to |group.members|
        invariant |r| == |works|
        invariant Pointwise(engine) ==> forall l | 0 <= l < k :: Right(works, r, group.members[l])
        invariant Pointwise(engine) ==> forall i | 0 <= i < |works| && Right(works, slots, i) :: Right(works, r, i)
      {
        if Pointwise(engine) {
          GroupDecodesAlone(cfg, engine, sessions, works, group, clips, k);
        }
        r := r[group.members[k] := Some(items[k])];
      }
    }

    /** An accepted batch: sessions and replies are those of the jobs submitted one after the
        other, if the engine decodes clip by clip. */
    method Process(works: seq<Work>) returns (r: Result<seq<Reply>, Error>)
      requires Acceptable(cfg, sessions, works, |works|)
      modifies this`sessions
      ensures r.Err? ==> r.error == ResultCount
      ensures old(Bounded()) && Honest(works) ==> Bounded()
      ensures Pointwise(engine) ==> r.Ok? && (sessions, r.value) == Serial(cfg, engine, old(sessions), works)
    {
      ghost var before := sessions;
      AcceptableIsDistinct(cfg, before, works);
      Extend(works);
      if Honest(works) && forall s | s in before :: |before[s].pcm| <= cfg.maxSegment {
        ExtendBounded(cfg, before, sessions, works);
      }
      ghost var heard := sessions;
      var groups := GroupByKey(works);
      var decoded := DecodeGroups(works, groups);
      if decoded.None? {
        return Err(ResultCount);
      }
      if Pointwise(engine) {
        forall i | 0 <= i < |works| ensures decoded.value[i] == Some(Item(cfg, engine, before, works[i])) {
          assert Right(works, decoded.value, i);
        }
      }
      var now, replies := CommitAll(cfg, engine, before, sessions, works, decoded.value);
      sessions := now;
      if replies.None? {
        return Err(ResultCount);
      }
      if Pointwise(engine) {
        BatchIsSerial(cfg, engine, before, heard, sessions, replies.value, works);
      }
      return Ok(replies.value);
    }

    /** A batch. When it is turned away, for the first problem of its jobs in order, nothing
        has changed. */
    method Submit(works: seq<Work>) returns (r: Result<seq<Reply>, Error>)
      modifies this`sessions
      ensures old(Bounded()) && Honest(works) ==> Bounded()
      ensures r == Err(NotReady) <==> !ready
      ensures ready && (works == [] || |works| > cfg.maxItems) ==> r == Err(BatchSize)
      ensures r.Err? && r.error != ResultCount ==> sessions == old(sessions)
      ensures ready && 0 < |works| <= cfg.maxItems && !Acceptable(cfg, old(sessions), works, |works|) ==>
                r.Err? && exists n :: 0 <= n < |works| && Acceptable(cfg, old(sessions), works, n)
                                      && Problem(cfg, old(sessions), works, n) == Some(r.error)
      ensures ready && 0 < |works| <= cfg.maxItems && Acceptable(cfg, old(sessions), works, |works|) && Pointwise(engine) ==>
                r.Ok? && (sessions, r.value) == Serial(cfg, engine, old(sessions), works)
    {
      if !ready {
        return Err(NotReady);
      }
      if works == [] || |works| > cfg.maxItems {
        return Err(BatchSize);
      }
      var problem := Validate(works);
      if problem.Some? {
        return Err(problem.value);
      }
      r := Process(works);
    }

    /** The text of the finished segment: the cached final if there is one, else a decode of
        everything heard; the segment is empty afterwards. */
    method ConsumeFinal(session: string) returns (r: Result<string, Error>)
      modifies this`sessions
      ensures session !in old(sessions) ==> r == Err(StaleSession)
      ensures r.Err? ==> sessions == old(sessions)
      ensures r.Ok? ==>
                && session in old(sessions) && sessions.Keys == old(sessions).Keys
                && sessions[session].pcm == [] && sessions[session].cachedFinal == None
                && (forall s | s in sessions && s != session :: sessions[s] == old(sessions)[s])
                && (old(sessions)[session].cachedFinal.Some? ==> r.value == old(sessions)[session].cachedFinal.value)
                && (old(sessions)[session].cachedFinal.None? && old(sessions)[session].pcm == [] ==> r.value == "")
      ensures session in old(sessions) && ready && Pointwise(engine) ==> r.Ok?
      ensures r.Ok? && old(sessions)[session].cachedFinal.None? && old(sessions)[session].pcm != [] ==>
                var st := old(sessions)[session];
                var beam := if cfg.flavour.SenseVoice? then 0 else cfg.finalBeam;
                && |engine([st.pcm], st.language, beam)| == 1 && r.value == engine([st.pcm], st.language, beam)[0].text
                && sessions[session].language == (if cfg.flavour.FasterWhisper? && st.language.None?
                                                  then Some(engine([st.pcm], st.language, beam)[0].language) else st.language)
      ensures r.Ok? && (old(sessions)[session].cachedFinal.Some? || old(sessions)[session].pcm == []) ==>
                sessions[session].language == old(sessions)[session].language
      ensures r.Ok? ==> sessions[session].backend == old(sessions)[session].backend
                        && sessions[session].partialText == if cfg.flavour.FasterWhisper? then "" else old(sessions)[session].partialText
    {
      if session !in sessions {
        return Err(StaleSession);
      }
      var st := sessions[session];
      var text := "";
      if st.cachedFinal.Some? {
        text := st.cachedFinal.value;
      } else if st.pcm != [] {
        if !ready {
          return Err(NotReady);
        }
        var items := engine([st.pcm], st.language, if cfg.flavour.SenseVoice? then 0 else cfg.finalBeam);
        if |items| != 1 {
          return Err(ResultCount);
        }
        text := items[0].text;
        if cfg.flavour.FasterWhisper? && st.language.None? {
          st := st.(language := Some(items[0].language));
        }
      }
      var blank := if cfg.flavour.FasterWhisper? then "" else st.partialText;
      sessions := sessions[session := st.(pcm := [], partialText := blank, cachedFinal := None)];
      return Ok(text);
    }
  }

  lemma BatchIsSerial(cfg: Config, e: Engine, before: map<string, SessionState>, heard: map<string, SessionState>,
                      after: map<string, SessionState>, replies: seq<Reply>, works: seq<Work>)
    requires Pointwise(e) && Distinct(works) && forall i | 0 <= i < |works| :: works[i].session in before
    requires HeardUpTo(before, heard, works, |works|)
    requires DoneUpTo(cfg, e, before, heard, after, replies, works, |works|)
    ensures (after, replies) == Serial(cfg, e, before, works)
  {
    SerialIsPointwise(cfg, e, before, works, |works|);
    assert works[..|works|] == works;
    var so := Serial(cfg, e, before, works);
    DoneIsUnique(cfg, e, before, works, heard, after, so.0, replies, so.1);
  }

  lemma ExtendBounded(cfg: Config, before: map<string, SessionState>, now: map<string, SessionState>, works: seq<Work>)
    requires Acceptable(cfg, before, works, |works|)
    requires Honest(works) && forall i | 0 <= i < |works| :: works[i].session in before
    requires HeardUpTo(before, now, works, |works|)
    requires forall s | s in before :: |before[s].pcm| <= cfg.maxSegment
    ensures forall s | s in now :: |now[s].pcm| <= cfg.maxSegment
  {
    forall s | s in now ensures |now[s].pcm| <= cfg.maxSegment {
      if i :| 0 <= i < |works| && works[i].session == s {
        assert Problem(cfg, before, works, i).None?;
      }
    }
  }

  /** What the engine is asked for one job, what it does to the session, and what the caller is
      told: the chunk alone for a partial of faster-whisper and the whole segment otherwise;
      partial texts are joined, a final is kept for the finish; a known language stays. */
  lemma OneJob(cfg: Config, e: Engine, st: SessionState, w: Work)
    requires Pointwise(e)
    ensures var heard := Heard(st, w);
            var item := Alone(cfg, e, heard, w);
            var after := Committed(cfg, heard, w, item);
            var chunk := cfg.flavour.FasterWhisper? && !w.final;
            var beam := if cfg.flavour.SenseVoice? then 0 else if w.final then cfg.finalBeam else cfg.partialBeam;
            && item == e([if chunk then w.pcm else st.pcm + w.pcm], st.language, beam)[0]
            && after.pcm == st.pcm + w.pcm && after.backend == st.backend
            && after.cachedFinal == (if w.final then Some(item.text) else st.cachedFinal)
            && after.partialText == (if chunk then AppendTranscript(st.partialText, item.text) else st.partialText)
            && TextOf(cfg, heard, w, item) == (if chunk then after.partialText else item.text)
            && after.language == (if st.language.Some? then st.language
                                  else if cfg.flavour.FasterWhisper? || item.language in cfg.languages then Some(item.language)
                                  else None)
  {
    var heard := Heard(st, w);
    var clips := [Waveform(cfg, heard, w)];
    assert |e(clips, KeyOf(cfg, heard, w).language, KeyOf(cfg, heard, w).beam)| == 1;
  }

  /** A batch is accepted if and only if every job is for an open session under its backend's
      own name, no two are for one session, and no segment grows beyond its limit. */
  lemma AcceptedExactly(cfg: Config, sessions: map<string, SessionState>, works: seq<Work>)
    ensures Acceptable(cfg, sessions, works, |works|) <==>
              && (forall i | 0 <= i < |works| ::
                    && works[i].session in sessions && sessions[works[i].session].backend == works[i].backend
                    && |sessions[works[i].session].pcm| + works[i].samples <= cfg.maxSegment)
              && Distinct(works)
  {
    if Acceptable(cfg, sessions, works, |works|) {
      AcceptableIsDistinct(cfg, sessions, works);
      forall i | 0 <= i < |works|
        ensures works[i].session in sessions && sessions[works[i].session].backend == works[i].backend
        ensures |sessions[works[i].session].pcm| + works[i].samples <= cfg.maxSegment
      {
        assert Problem(cfg, sessions, works, i).None?;
      }
    }
  }

  /** A finished final job is what finishing the segment returns: submitting the last audio of
      a segment as final and then finishing gives the decode of the whole segment. */
  lemma FinalDecodesWholeSegment(cfg: Config, e: Engine, st: SessionState, w: Work)
    requires Pointwise(e) && w.final
    ensures var heard := Heard(st, w); var item := Alone(cfg, e, heard, w);
            && Committed(cfg, heard, w, item).cachedFinal == Some(item.text)
            && item == e([st.pcm + w.pcm], st.language, KeyOf(cfg, heard, w).beam)[0]
  {
    assert |e([st.pcm + w.pcm], st.language, KeyOf(cfg, Heard(st, w), w).beam)| == 1;
  }
}
