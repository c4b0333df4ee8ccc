/** Whole protocol runs as the client sees them. */
module ProtocolRuns {
  import opened Pcm
  import opened Transcript
  import opened Protocol
  import opened Client

  /** A command on its own, or the gateway's application of a result: several commands that
      take effect together, or not at all when one of them raises or something after them
      does. */
  datatype Step = Direct(command: Command) | Guarded(commands: seq<Command>, fails: bool)

  /** Commands one after the other until one raises. */
  function HandleAll(cfg: Config, p: Session, cs: seq<Command>): Reply
    requires Configured(cfg)
  {
    if cs == [] then Reply(p, [], false)
    else
      var before := HandleAll(cfg, p, cs[..|cs| - 1]);
      if before.raised then before
      else
        var r := Handle(cfg, before.session, cs[|cs| - 1]);
        Reply(r.session, before.events + r.events, r.raised)
  }

  function SkipsAll(cfg: Config, p: Session, cs: seq<Command>): nat
    requires Configured(cfg)
  {
    if cs == [] then 0
    else
      var before := HandleAll(cfg, p, cs[..|cs| - 1]);
      SkipsAll(cfg, p, cs[..|cs| - 1]) + if before.raised then 0 else Skips(before.session, cs[|cs| - 1])
  }

  predicate Restored(cfg: Config, p: Session, step: Step)
    requires Configured(cfg) && step.Guarded?
  {
    step.fails || HandleAll(cfg, p, step.commands).raised
  }

  function Next(cfg: Config, p: Session, step: Step): Reply
    requires Configured(cfg)
  {
    match step
    case Direct(c) => Handle(cfg, p, c)
    case Guarded(cs, _) => if Restored(cfg, p, step) then Reply(p, [], true) else HandleAll(cfg, p, cs)
  }

  function SkipsOf(cfg: Config, p: Session, step: Step): nat
    requires Configured(cfg)
  {
    match step
    case Direct(c) => Skips(p, c)
    case Guarded(cs, _) => if Restored(cfg, p, step) then 0 else SkipsAll(cfg, p, cs)
  }

  function RunOf(cfg: Config, steps: seq<Step>): (Session, seq<Event>)
    requires Configured(cfg)
  {
    if steps == [] then (OPENED, [])
    else
      var before := RunOf(cfg, steps[..|steps| - 1]);
      var r := Next(cfg, before.0, steps[|steps| - 1]);
      (r.session, before.1 + r.events)
  }

  function SkipsIn(cfg: Config, steps: seq<Step>): nat
    requires Configured(cfg)
  {
    if steps == [] then 0
    else SkipsIn(cfg, steps[..|steps| - 1]) + SkipsOf(cfg, RunOf(cfg, steps[..|steps| - 1]).0, steps[|steps| - 1])
  }

  // ----- what is relayed over several commands ------------------------------------------

  predicate Increasing(events: seq<Event>, after: int) {
    && (forall i | 0 <= i < |events| :: after < events[i].sequence)
    && (forall i, j | 0 <= i < j < |events| :: events[i].sequence < events[j].sequence)
  }

  /** Like `Tells`, but the missing numbers may be anywhere before the last event. */
  ghost predicate Relays(p: Session, skips: nat, session: Session, events: seq<Event>) {
    && session.state.confirmed == p.state.confirmed + Confirmed(events)
    && session.state.partial == Displayed(p.state.partial, events)
    && Increasing(events, p.state.sequence)
    && (skips == 0 ==> Numbered(events, p.state.sequence + 1))
    && session.state.sequence == p.state.sequence + skips + |events|
    && (events == [] ==> skips == 0)
    && (events != [] ==> events[|events| - 1].sequence == session.state.sequence)
  }

  lemma NothingRelays(p: Session)
    ensures Relays(p, 0, p, [])
  {
    assert p.state.confirmed + "" == p.state.confirmed;
  }

  /** Two numbered stretches, the second beyond the first. */
  lemma IncreasingConcat(a: seq<Event>, before: int, b: seq<Event>, mid: int)
    requires Increasing(a, before) && Increasing(b, mid)
    requires if a == [] then mid == before else a[|a| - 1].sequence == mid
    ensures Increasing(a + b, before)
  {
    var all := a + b;
    forall i, j | 0 <= i < j < |all| ensures all[i].sequence < all[j].sequence {
      if i < |a| <= j {
        assert a[i].sequence <= a[|a| - 1].sequence == mid < b[j - |a|].sequence;
      }
    }
  }

  lemma RelaysThen(p: Session, first: nat, mid: Session, said: seq<Event>, second: nat, end: Session, more: seq<Event>)
    requires Relays(p, first, mid, said) && Relays(mid, second, end, more)
    ensures Relays(p, first + second, end, said + more)
  {
    ConfirmedConcat(said, more);
    DisplayedConcat(p.state.partial, said, more);
    assert p.state.confirmed + Confirmed(said) + Confirmed(more) == p.state.confirmed + (Confirmed(said) + Confirmed(more));
    IncreasingConcat(said, p.state.sequence, more, mid.state.sequence);
  }

  lemma HandleRelays(cfg: Config, p: Session, c: Command)
    requires Configured(cfg)
    ensures Relays(p, Skips(p, c), Handle(cfg, p, c).session, Handle(cfg, p, c).events)
  {
    HandleTells(cfg, p, c);
  }

  lemma {:induction false} HandleAllRelays(cfg: Config, p: Session, cs: seq<Command>)
    requires Configured(cfg)
    ensures Relays(p, SkipsAll(cfg, p, cs), HandleAll(cfg, p, cs).session, HandleAll(cfg, p, cs).events)
    decreases |cs|
  {
    if cs == [] {
      NothingRelays(p);
    } else {
      var front, last := cs[..|cs| - 1], cs[|cs| - 1];
      HandleAllRelays(cfg, p, front);
      var before := HandleAll(cfg, p, front);
      if !before.raised {
        HandleRelays(cfg, before.session, last);
        var r := Handle(cfg, before.session, last);
        RelaysThen(p, SkipsAll(cfg, p, front), before.session, before.events, Skips(before.session, last), r.session, r.events);
      }
    }
  }

  lemma NextRelays(cfg: Config, p: Session, step: Step)
    requires Configured(cfg)
    ensures Relays(p, SkipsOf(cfg, p, step), Next(cfg, p, step).session, Next(cfg, p, step).events)
  {
    match step
    case Direct(c) => HandleRelays(cfg, p, c);
    case Guarded(cs, _) =>
      if Restored(cfg, p, step) {
        NothingRelays(p);
      } else {
        HandleAllRelays(cfg, p, cs);
      }
  }

  lemma {:induction false} RunRelays(cfg: Config, steps: seq<Step>)
    requires Configured(cfg)
    ensures Relays(OPENED, SkipsIn(cfg, steps), RunOf(cfg, steps).0, RunOf(cfg, steps).1)
    decreases |steps|
  {
    if steps == [] {
      NothingRelays(OPENED);
    } else {
      var front := steps[..|steps| - 1];
      RunRelays(cfg, front);
      var before, last := RunOf(cfg, front), steps[|steps| - 1];
      NextRelays(cfg, before.0, last);
      var r := Next(cfg, before.0, last);
      RelaysThen(OPENED, SkipsIn(cfg, front), before.0, before.1, SkipsOf(cfg, before.0, last), r.session, r.events);
    }
  }

  // ----- the theorems -------------------------------------------------------------------

  /** After every run, in all modes and through every failed application, the client shows
      exactly the server's confirmed text and its current tail. */
  lemma ClientAgrees(cfg: Config, steps: seq<Step>)
    requires Configured(cfg)
    ensures var (p, events) := RunOf(cfg, steps);
            && Joined(ShowAll(events).confirmed) == p.state.confirmed
            && ShowAll(events).tail == p.state.partial
  {
    RunRelays(cfg, steps);
    DisplayIsConfirmedPlusTail(RunOf(cfg, steps).1);
    assert "" + Confirmed(RunOf(cfg, steps).1) == Confirmed(RunOf(cfg, steps).1);
  }

  /** Event numbers always increase; they are 1, 2, 3 and so on exactly when no command of
      the run took a number for an event it dropped. */
  lemma ConsecutiveExactlyWithoutSkips(cfg: Config, steps: seq<Step>)
    requires Configured(cfg)
    ensures Increasing(RunOf(cfg, steps).1, 0)
    ensures Numbered(RunOf(cfg, steps).1, 1) <==> SkipsIn(cfg, steps) == 0
  {
    RunRelays(cfg, steps);
    var events := RunOf(cfg, steps).1;
    if events != [] {
      assert events[|events| - 1].sequence == SkipsIn(cfg, steps) + |events|;
    }
  }

  /** Commands that never drop an event. */
  predicate Plain(c: Command) {
    && (c.ApplyResult? ==> c.mode != ConfirmedPlusTail || c.confirmedText == "")
    && (c.SendFinal? ==> c.tail.None?)
  }

  predicate PlainStep(step: Step) {
    match step
    case Direct(c) => Plain(c)
    case Guarded(cs, _) => forall i | 0 <= i < |cs| :: Plain(cs[i])
  }

  lemma {:induction false} PlainSkipsNothing(cfg: Config, p: Session, cs: seq<Command>)
    requires Configured(cfg) && forall i | 0 <= i < |cs| :: Plain(cs[i])
    ensures SkipsAll(cfg, p, cs) == 0
    decreases |cs|
  {
    if cs != [] {
      PlainSkipsNothing(cfg, p, cs[..|cs| - 1]);
    }
  }

  lemma {:induction false} PlainRunsSkipNothing(cfg: Config, steps: seq<Step>)
    requires Configured(cfg) && forall i | 0 <= i < |steps| :: PlainStep(steps[i])
    ensures SkipsIn(cfg, steps) == 0
    decreases |steps|
  {
    if steps != [] {
      var front, last := steps[..|steps| - 1], steps[|steps| - 1];
      PlainRunsSkipNothing(cfg, front);
      assert PlainStep(last);
      if last.Guarded? {
        PlainSkipsNothing(cfg, RunOf(cfg, front).0, last.commands);
      }
    }
  }

  /** With cumulative and replaceable results the client's tracker never has anything to
      report, failed applications included. */
  lemma TrackerStaysSilent(cfg: Config, steps: seq<Step>)
    requires Configured(cfg) && forall i | 0 <= i < |steps| :: PlainStep(steps[i])
    ensures Numbered(RunOf(cfg, steps).1, 1)
    ensures Silent(RunOf(cfg, steps).1)
  {
    PlainRunsSkipNothing(cfg, steps);
    ConsecutiveExactlyWithoutSkips(cfg, steps);
    SilentIffConsecutive(RunOf(cfg, steps).1);
  }

  /** In the third mode it does: after `ready`, confirming any text that is not already the
      tail makes the client report a gap. */
  lemma DroppedEventShowsAsGap(cfg: Config, text: string, tail: string, samples: int)
    requires Configured(cfg) && text != ""
    ensures var result := ApplyResult(ConfirmedPlusTail, "", text, tail, samples, 0);
            !Silent(RunOf(cfg, [Direct(SendReady), Guarded([result], false)]).1)
  {
    var result := ApplyResult(ConfirmedPlusTail, "", text, tail, samples, 0);
    var steps := [Direct(SendReady), Guarded([result], false)];
    var ready := Handle(cfg, OPENED, SendReady);
    FirstStep(cfg, Direct(SendReady));
    assert steps[..1] == [Direct(SendReady)];
    assert RunOf(cfg, steps[..1]) == (ready.session, ready.events);
    OneCommand(cfg, ready.session, result);
    assert SkipsIn(cfg, steps) > 0;
    ConsecutiveExactlyWithoutSkips(cfg, steps);
    SilentIffConsecutive(RunOf(cfg, steps).1);
    assert RunOf(cfg, steps).1[0] == ready.events[0];
  }

  lemma FirstStep(cfg: Config, step: Step)
    requires Configured(cfg)
    ensures RunOf(cfg, [step]) == (Next(cfg, OPENED, step).session, Next(cfg, OPENED, step).events)
  {
    assert [step][..0] == [];
    NothingBefore(Next(cfg, OPENED, step).events);
  }

  lemma NothingBefore(events: seq<Event>)
    ensures [] + events == events
  {
  }

  lemma OneCommand(cfg: Config, p: Session, c: Command)
    requires Configured(cfg)
    ensures HandleAll(cfg, p, [c]) == Handle(cfg, p, c)
    ensures SkipsAll(cfg, p, [c]) == Skips(p, c)
  {
    assert [c][..0] == [];
    assert HandleAll(cfg, p, []) == Reply(p, [], false);
    var none: seq<Event> := [];
    assert none + Handle(cfg, p, c).events == Handle(cfg, p, c).events;
  }

  // ----- one terminal event -------------------------------------------------------------

  predicate Closing(e: Event) {
    e.kind == Final || e.kind == Error
  }

  /** A closing event can only be the last one, and comes with the terminal latch. */
  ghost predicate ClosesOnce(before: Session, after: Session, events: seq<Event>) {
    && (before.terminal ==> after.terminal && events == [])
    && (forall i | 0 <= i < |events| && Closing(events[i]) :: i == |events| - 1 && after.terminal)
  }

  lemma ClosesThen(p: Session, mid: Session, said: seq<Event>, end: Session, more: seq<Event>)
    requires ClosesOnce(p, mid, said) && ClosesOnce(mid, end, more)
    ensures ClosesOnce(p, end, said + more)
  {
  }

  ghost predicate NoneClosing(events: seq<Event>) {
    forall i | 0 <= i < |events| :: !Closing(events[i])
  }

  lemma ResultClosesNothing(cfg: Config, s: State, text: string, samples: int)
    requires Configured(cfg)
    ensures NoneClosing(ApplyModelUpdate(cfg, s, text, samples).events)
  {
  }

  lemma HandleCloses(cfg: Config, p: Session, c: Command)
    requires Configured(cfg)
    ensures ClosesOnce(p, Handle(cfg, p, c).session, Handle(cfg, p, c).events)
  {
    if !p.terminal && c.ApplyResult? {
      match c.mode
      case CumulativeSnapshot => ResultClosesNothing(cfg, p.state, c.text, c.samples);
      case ReplaceableSegment =>
      case ConfirmedPlusTail => ConfirmedPlusTailClosesNothing(cfg, p.state, c.confirmedText, c.tailText, c.samples);
    }
  }

  lemma ConfirmedPlusTailClosesNothing(cfg: Config, s: State, confirmedText: string, tailText: string, samples: int)
    requires Configured(cfg)
    ensures NoneClosing(ApplyConfirmedPlusTail(cfg, s, confirmedText, tailText, samples).events)
  {
    ResultClosesNothing(cfg, s, s.confirmed + tailText, samples);
    var shown := ApplyModelUpdate(cfg, s, s.confirmed + confirmedText, samples);
    var committed := CommitPending(cfg, shown.state);
    ResultClosesNothing(cfg, committed.state, committed.state.confirmed + tailText, 0);
    assert NoneClosing(committed.events);
  }

  lemma {:induction false} HandleAllCloses(cfg: Config, p: Session, cs: seq<Command>)
    requires Configured(cfg)
    ensures ClosesOnce(p, HandleAll(cfg, p, cs).session, HandleAll(cfg, p, cs).events)
    decreases |cs|
  {
    if cs != [] {
      HandleAllCloses(cfg, p, cs[..|cs| - 1]);
      var before := HandleAll(cfg, p, cs[..|cs| - 1]);
      if !before.raised {
        HandleCloses(cfg, before.session, cs[|cs| - 1]);
        var r := Handle(cfg, before.session, cs[|cs| - 1]);
        ClosesThen(p, before.session, before.events, r.session, r.events);
      }
    }
  }

  /** Every run sends at most one `final` or `error`, and nothing after it. */
  lemma {:induction false} OneClosingEvent(cfg: Config, steps: seq<Step>)
    requires Configured(cfg)
    ensures ClosesOnce(OPENED, RunOf(cfg, steps).0, RunOf(cfg, steps).1)
    decreases |steps|
  {
    if steps != [] {
      OneClosingEvent(cfg, steps[..|steps| - 1]);
      var before, last := RunOf(cfg, steps[..|steps| - 1]), steps[|steps| - 1];
      var r := Next(cfg, before.0, last);
      assert ClosesOnce(before.0, r.session, r.events) by {
        match last
        case Direct(c) => HandleCloses(cfg, before.0, c);
        case Guarded(cs, _) => HandleAllCloses(cfg, before.0, cs);
      }
      ClosesThen(OPENED, before.0, before.1, r.session, r.events);
    }
  }
}
