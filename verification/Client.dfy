/** The reference client (scripts/stream_asr_client.py): what it displays and when it
    complains about event numbers. */
module Client {
  import opened Pcm
  import opened Transcript

  datatype Display = Display(confirmed: seq<string>, tail: string)

  const BLANK := Display([], "")

  function Show(d: Display, e: Event): Display {
    match e.kind
    case SentenceFinal => Display(d.confirmed + [e.text], "")
    case Partial => d.(tail := e.text)
    case Final => d.(tail := e.text)
    case _ => d
  }

  function Rendered(d: Display): string {
    Joined(d.confirmed) + d.tail
  }

  class DisplayState {
    var confirmed: seq<string>
    var tail: string

    ghost function View(): Display
      reads this
    {
      Display(confirmed, tail)
    }

    constructor ()
      ensures View() == BLANK
    {
      confirmed, tail := [], "";
    }

    /** The text on display after a transcript event; nothing for any other event. */
    method Apply(e: Event) returns (text: Option<string>)
      modifies this
      ensures View() == Show(old(View()), e)
      ensures text == if e.kind in {SentenceFinal, Partial, Final} then Some(Rendered(View())) else None
    {
      if e.kind == SentenceFinal {
        confirmed := confirmed + [e.text];
        tail := "";
      } else if e.kind == Partial || e.kind == Final {
        tail := e.text;
      } else {
        return None;
      }
      return Some(Joined(confirmed) + tail);
    }
  }

  function ShowAll(events: seq<Event>): (d: Display) {
    if events == [] then BLANK else Show(ShowAll(events[..|events| - 1]), events[|events| - 1])
  }

  /** The client's fold shows all confirmed sentences and the tail last reported. */
  lemma {:induction false} DisplayIsConfirmedPlusTail(events: seq<Event>)
    ensures Joined(ShowAll(events).confirmed) == Confirmed(events)
    ensures ShowAll(events).tail == Displayed("", events)
    decreases |events|
  {
    if events != [] {
      var front, last := events[..|events| - 1], events[|events| - 1];
      DisplayIsConfirmedPlusTail(front);
      ShowConfirms(ShowAll(front), last);
    }
  }

  lemma ShowConfirms(d: Display, e: Event)
    ensures Joined(Show(d, e).confirmed) == Joined(d.confirmed) + if e.kind == SentenceFinal then e.text else ""
  {
    JoinedSnoc(d.confirmed, e.text);
    assert Joined(d.confirmed) + "" == Joined(d.confirmed);
  }

  // ----- event numbers ------------------------------------------------------------------

  datatype Warning = NotIncreasing(sequence: int, previous: int) | Gap(expected: int, sequence: int)

  function Check(last: Option<int>, sequence: int): Option<Warning> {
    if last.None? then None
    else if sequence <= last.value then Some(NotIncreasing(sequence, last.value))
    else if sequence != last.value + 1 then Some(Gap(last.value + 1, sequence))
    else None
  }

  /** After `last` only the next number passes in silence; one that is not greater is reported
      together with `last`, a greater one together with the number that was expected. */
  lemma WarnsExactly(last: int, sequence: int)
    ensures Check(None, sequence) == None
    ensures Check(Some(last), sequence) == None <==> sequence == last + 1
    ensures Check(Some(last), sequence) == Some(NotIncreasing(sequence, last)) <==> sequence < last + 1
    ensures Check(Some(last), sequence) == Some(Gap(last + 1, sequence)) <==> sequence > last + 1
  {
  }

  class SequenceTracker {
    var lastSequence: Option<int>

    constructor ()
      ensures lastSequence == None
    {
      lastSequence := None;
    }

    method Observe(e: Event) returns (warning: Option<Warning>)
      modifies this
      ensures lastSequence == Some(e.sequence)
      ensures warning == Check(old(lastSequence), e.sequence)
    {
      var previous := lastSequence;
      lastSequence := Some(e.sequence);
      if previous.None? {
        return None;
      }
      if e.sequence <= previous.value {
        return Some(NotIncreasing(e.sequence, previous.value));
      }
      if e.sequence != previous.value + 1 {
        return Some(Gap(previous.value + 1, e.sequence));
      }
      return None;
    }
  }

  function LastNumber(events: seq<Event>): Option<int> {
    if events == [] then None else Some(events[|events| - 1].sequence)
  }

  /** The tracker sees the whole stream without a warning. */
  predicate Silent(events: seq<Event>) {
    events == [] ||
    (Silent(events[..|events| - 1]) && Check(LastNumber(events[..|events| - 1]), events[|events| - 1].sequence) == None)
  }

  /** The tracker keeps quiet exactly about consecutive numbers. */
  lemma {:induction false} SilentIffConsecutive(events: seq<Event>)
    ensures Silent(events) <==> events == [] || Numbered(events, events[0].sequence)
    decreases |events|
  {
    if events != [] {
      var front := events[..|events| - 1];
      SilentIffConsecutive(front);
      if front != [] {
        assert front[|front| - 1] == events[|events| - 2];
        if Silent(events) {
          forall i | 0 <= i < |events| ensures events[i].sequence == events[0].sequence + i {
            if i < |front| {
              assert front[i] == events[i];
            }
          }
        }
        if Numbered(events, events[0].sequence) {
          assert Numbered(front, front[0].sequence);
        }
      }
    }
  }
}
