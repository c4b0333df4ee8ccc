/** The protocol session as an object that owns a transcript object, and the gateway's
    all-or-nothing application of a result to it. */
module ProtocolObject {
  import opened Pcm
  import opened Transcript
  import opened TranscriptObject
  import opened Protocol
  import opened ProtocolRuns

  class ProtocolSession {
    const cfg: Config
    var state: StreamingTranscriptState
    var terminal: bool

    ghost predicate Valid()
      reads this, state
    {
      Configured(cfg) && state.cfg == cfg
    }

    ghost function View(): Session
      reads this, state
    {
      Session(state.View(), terminal)
    }

    constructor (cfg: Config)
      requires Configured(cfg)
      ensures Valid() && View() == OPENED && this.cfg == cfg && fresh(state)
    {
      this.cfg := cfg;
      state := new StreamingTranscriptState(cfg);
      terminal := false;
    }

    method ConfirmThenTail(confirmedText: string, tailText: string, samples: int) returns (events: seq<Event>)
      requires Valid()
      modifies state
      ensures Valid() && Outcome(state.View(), events, false)
                      == ApplyConfirmedPlusTail(cfg, old(state.View()), confirmedText, tailText, samples)
    {
      ghost var s := state.View();
      var conflict;
      if confirmedText == "" {
        PlainUpdate(cfg, s, tailText, samples);
        events, conflict := state.ModelUpdate(state.confirmedText + tailText, samples);
      } else {
        var dropped;
        dropped, conflict := state.ModelUpdate(state.confirmedText + confirmedText, samples);
        events := state.ClosePending();
        var more;
        more, conflict := state.ModelUpdate(state.confirmedText + tailText, 0);
        events := events + more;
      }
    }

    /** One command; a session that has ended refuses every further one. */
    method Execute(c: Command) returns (events: seq<Event>, raised: bool)
      requires Valid()
      modifies this, state
      ensures Valid() && state == old(state)
      ensures Reply(View(), events, raised) == Handle(cfg, old(View()), c)
    {
      if terminal {
        return [], true;
      }
      raised := false;
      match c
      case SendReady =>
        var event := state.NewEvent(Ready, "");
        events := [event];
      case ApplyResult(mode, text, confirmedText, tailText, samples, segmentId) =>
        if mode == CumulativeSnapshot {
          events, raised := state.ModelUpdate(text, samples);
        } else if mode == ReplaceableSegment {
          events, raised := state.SegmentSnapshot(segmentId, text, samples);
        } else {
          events := ConfirmThenTail(confirmedText, tailText, samples);
        }
      case CloseSegment =>
        events := state.ClosePending();
      case SendFinal(tail) =>
        if tail.Some? {
          var dropped, conflict := state.ModelUpdate(state.confirmedText + tail.value, 0);
        }
        var event := state.NewEvent(Final, state.partialText);
        events := [event];
        terminal := true;
      case SendError =>
        var event := state.NewEvent(Error, "");
        events := [event];
        terminal := true;
    }

    method ExecuteAll(cs: seq<Command>) returns (events: seq<Event>, raised: bool)
      requires Valid()
      modifies this, state
      ensures Valid() && state == old(state)
      ensures Reply(View(), events, raised) == HandleAll(cfg, old(View()), cs)
    {
      events, raised := [], false;
      ghost var p := View();
      var i := 0;
      assert cs[..0] == [];
      while i < |cs| && !raised
        invariant i <= |cs| && Valid() && state == old(state)
        invariant Reply(View(), events, raised) == HandleAll(cfg, p, cs[..i])
      {
        assert cs[..i + 1][..i] == cs[..i];
        var more;
        more, raised := Execute(cs[i]);
        events := events + more;
        i := i + 1;
      }
      if raised {
        RaisedStays(cfg, p, cs, i);
      }
      assert i == |cs| ==> cs[..i] == cs;
    }

    /** The gateway applies a result under a saved copy of the state. When a command raises,
        or anything after the commands fails, the copy goes back and nothing is sent. */
    method ApplyGuarded(cs: seq<Command>, fails: bool) returns (events: seq<Event>, raised: bool)
      requires Valid()
      modifies this, state
      ensures Valid() && (state == old(state) || fresh(state))
      ensures Reply(View(), events, raised) == Next(cfg, old(View()), Guarded(cs, fails))
    {
      var saved := new StreamingTranscriptState.Copy(state);
      var savedTerminal := terminal;
      events, raised := ExecuteAll(cs);
      if raised || fails {
        state, terminal := saved, savedTerminal;
        return [], true;
      }
    }
  }

  /** Commands after the one that raised are not executed. */
  lemma {:induction false} RaisedStays(cfg: Config, p: Session, cs: seq<Command>, n: nat)
    requires Configured(cfg) && n <= |cs| && HandleAll(cfg, p, cs[..n]).raised
    ensures HandleAll(cfg, p, cs) == HandleAll(cfg, p, cs[..n])
    decreases |cs|
  {
    if n == |cs| {
      assert cs[..n] == cs;
    } else {
      assert cs[..|cs| - 1][..n] == cs[..n];
      RaisedStays(cfg, p, cs[..|cs| - 1], n);
    }
  }
}
