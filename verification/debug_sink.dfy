/**
 The debug log as `core/events.py` writes it. `SverchokEvents.print` reads
 the `name` of every listed element, so an element that is Python's `None`
 raises `AttributeError` there, and the raise skips the clearing of the wave.
 */
module DebugSink {
  import opened Wrappers
  import opened Taxonomy
  import opened Records
  import opened Waves

  /** Reading `name` on Python's `None`. */
  datatype AttributeError = AttributeError

  /**
   `[el.name for el in updated_elements]` of `SverchokEvents.print`: reads the
   name (here, the identifier) of each element in turn and raises at the
   first missing one.
   */
  function ElementNames(elements: seq<Option<Subject>>): (r: Result<seq<Subject>, AttributeError>)
    decreases |elements|
    ensures r.Err? <==> None in elements
    ensures r.Ok? ==>
      |r.value| == |elements| && forall i :: 0 <= i < |elements| ==> elements[i] == Some(r.value[i])
  {
    if |elements| == 0 then Ok([])
    else
      match elements[0]
      case None => Err(AttributeError)
      case Some(subject) =>
        assert forall i :: 1 <= i < |elements| ==> elements[1..][i - 1] == elements[i];
        match ElementNames(elements[1..])
        case Err(e) => Err(e)
        case Ok(names) => Ok([subject] + names)
  }

  /** Whether `SverchokEvents.print` raises on a reduced event: only a listed element can make it. */
  predicate PrintRaises(event: ReducedEvent) {
    event.subjects.Some? && ElementNames(event.subjects.value).Err?
  }

  /** The wave `new_event` leaves, and whether the debug print raised on the way. */
  datatype LoggedStep = LoggedStep(wave: Wave, printRaised: bool)

  /**
   `new_event` as written, step by step: drop a node update; append; if the
   wave ends, classify its first event and, in debug mode with a determined
   kind, print the names of the leading run's elements, which raises before
   `events_wave.clear()` when one of them is missing; otherwise clear.
   Proved to agree with the intended step `NewEvent` except exactly when
   the print raises, in which case the grown wave is kept.
   */
  function NewEventAsWritten(wave: Wave, call: Call): (r: LoggedStep)
    ensures var intended := NewEvent(wave, call);
            && (r.printRaised <==> call.debug && intended.reduced.Some? && PrintRaises(intended.reduced.value))
            && (!r.printRaised ==> r.wave == intended.wave)
            && (r.printRaised ==> r.wave == wave + [Event(call.kind, call.element)] && r.wave != [])
  {
    if call.kind == BlenderEvent.NodeUpdate then LoggedStep(wave, false)
    else
      var grown := wave + [Event(call.kind, call.element)];
      if !IsWaveEnd(grown) then LoggedStep(grown, false)
      else
        var kind := Classify(grown[0].kind).value;
        if call.debug && kind != SverchokEvent.Undefined
           && ElementNames(Elements(LeadingRun(grown, grown[0]))).Err?
        then LoggedStep(grown, true)
        else LoggedStep([], false)
  }

  /**
   An undo notification without an element, then a tree update, with the
   debug preference on: the wave-ending event does not empty the wave.
   */
  lemma UndoWithoutElementStallsWave()
    ensures NewEventAsWritten([Event(BlenderEvent.Undo, None)],
                              Call(BlenderEvent.TreeUpdate, Some(Tree(0)), true)).wave
         == [Event(BlenderEvent.Undo, None), Event(BlenderEvent.TreeUpdate, Some(Tree(0)))]
  {
  }

  /**
   Once stalled this way the wave never recovers while debugging stays on:
   it still starts with the same event, so every later wave-ending call
   reduces it again, prints the same missing element and raises again.
   */
  lemma {:induction false} StallPersists(wave: Wave, call: Call)
    requires |wave| > 0 && Classify(wave[0].kind) != Ok(SverchokEvent.Undefined)
    requires wave[0].element.None?
    requires call.debug && Terminating(call.kind)
    ensures NewEventAsWritten(wave, call).printRaised
    ensures NewEventAsWritten(wave, call).wave[0] == wave[0]
  {
  }
}
