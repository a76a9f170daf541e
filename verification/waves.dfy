/**
 `CurrentEvents`: the wave of Blender events seen for the current user action,
 when the wave ends, and how a finished wave is reduced to one Sverchok event.
 The process-wide class attribute `events_wave` of `core/events.py` is an
 explicit state value here.
 */
module Waves {
  import opened Wrappers
  import opened Taxonomy
  import opened Records

  /** The events accumulated so far for one logical action, oldest first. */
  type Wave = seq<Event>

  /** `sign_of_wave_end`: the kinds that close a wave, in the order `core/events.py` lists them. */
  const WaveEndKinds: seq<BlenderEvent> :=
    [BlenderEvent.TreeUpdate, BlenderEvent.NodePropertyUpdate, BlenderEvent.MonadTreeUpdate]

  /** A kind that ends a wave as soon as it is appended. */
  predicate Terminating(kind: BlenderEvent) {
    || kind == BlenderEvent.TreeUpdate
    || kind == BlenderEvent.NodePropertyUpdate
    || kind == BlenderEvent.MonadTreeUpdate
  }

  /** `Terminating` is membership in the list `sign_of_wave_end`. */
  lemma TerminatingIsWaveEndSign(kind: BlenderEvent)
    ensures Terminating(kind) <==> kind in WaveEndKinds
  {
  }

  /**
   `is_wave_end`: whether the last event of the wave is `in` the list of
   wave-end signs, the list membership going through `Event.__eq__`.
   */
  function IsWaveEnd(wave: Wave): (r: bool)
    requires |wave| > 0
    ensures r <==> Terminating(wave[|wave| - 1].kind)
  {
    var r := Contains(Members(WaveEndKinds), Record(wave[|wave| - 1]));
    assert KindOf(Members(WaveEndKinds)[0]) == BlenderEvent.TreeUpdate;
    assert KindOf(Members(WaveEndKinds)[1]) == BlenderEvent.NodePropertyUpdate;
    assert KindOf(Members(WaveEndKinds)[2]) == BlenderEvent.MonadTreeUpdate;
    r
  }

  /**
   `takewhile(lambda ev: ev == head, wave)`: the longest prefix of the wave
   whose events compare equal to `head`, i.e. share its kind.
   */
  function LeadingRun(wave: Wave, head: Event): (run: Wave)
    decreases |wave|
    ensures |run| <= |wave| && run == wave[..|run|]
    ensures forall i :: 0 <= i < |run| ==> run[i].kind == head.kind
    ensures |run| == |wave| || wave[|run|].kind != head.kind
  {
    if |wave| == 0 || !Equals(Record(wave[0]), Record(head)) then []
    else [wave[0]] + LeadingRun(wave[1..], head)
  }

  /** The `updated_element` of each event, in order. */
  function Elements(events: Wave): (r: seq<Option<Subject>>)
    ensures |r| == |events|
    ensures forall i :: 0 <= i < |events| ==> r[i] == events[i].element
  {
    seq(|events|, i requires 0 <= i < |events| => events[i].element)
  }

  /**
   The Sverchok event a finished wave reduces to. `subjects` is `None` when
   the kind is undefined; otherwise it lists the elements of the wave's
   leading run of same-kind events, repeats kept.
   */
  datatype ReducedEvent = ReducedEvent(kind: SverchokEvent, subjects: Option<seq<Option<Subject>>>)

  /**
   `convert_wave_to_sverchok_event`: classify the first event; if that is
   undefined report no subjects, else report the elements of the maximal
   leading run of events of the first event's kind. Classification never
   raises (see `Classify`), so neither does the reduction.
   */
  function Reduce(wave: Wave): (r: ReducedEvent)
    requires |wave| > 0
    ensures Classify(wave[0].kind) == Ok(r.kind)
    ensures r.subjects.None? <==> r.kind == SverchokEvent.Undefined
    ensures r.subjects.Some? ==>
      var s := r.subjects.value;
      && 0 < |s| <= |wave|
      && (forall i :: 0 <= i < |s| ==> s[i] == wave[i].element && wave[i].kind == wave[0].kind)
      && (|s| == |wave| || wave[|s|].kind != wave[0].kind)
  {
    var kind := Classify(wave[0].kind).value;
    if kind == SverchokEvent.Undefined then ReducedEvent(kind, None)
    else ReducedEvent(kind, Some(Elements(LeadingRun(wave, wave[0]))))
  }

  /** A debug-log line: a raw event as it arrives, or the reduced event of a wave. */
  datatype TraceLine =
    | RawLine(kind: BlenderEvent, element: Option<Subject>)
    | ReducedLine(event: ReducedEvent)

  /**
   One call of `new_event`: the notification's kind and element, and the
   value the debug-mode preference had at the time of the call.
   */
  datatype Call = Call(kind: BlenderEvent, element: Option<Subject>, debug: bool)

  /**
   What a call of `new_event` leaves behind: the new wave, the reduced event
   if the call closed the wave, and the lines the debug log received.
   */
  datatype StepResult = StepResult(wave: Wave, reduced: Option<ReducedEvent>, trace: seq<TraceLine>)

  /**
   `CurrentEvents.new_event`, with a debug log that never fails (the failing
   print of `core/events.py` is modelled in `DebugSink`). A node update is
   dropped. Any other event is appended (and logged in debug mode); if it
   ends the wave, the wave is reduced (the result logged in debug mode) and
   cleared.
   */
  function NewEvent(wave: Wave, call: Call): (r: StepResult)
    ensures call.kind == BlenderEvent.NodeUpdate ==> r == StepResult(wave, None, [])
    ensures call.kind != BlenderEvent.NodeUpdate && !Terminating(call.kind) ==>
      r.wave == wave + [Event(call.kind, call.element)] && r.reduced.None?
    ensures call.kind != BlenderEvent.NodeUpdate && Terminating(call.kind) ==>
      r.wave == [] && r.reduced == Some(Reduce(wave + [Event(call.kind, call.element)]))
    ensures !call.debug ==> r.trace == []
    ensures call.debug && call.kind != BlenderEvent.NodeUpdate ==>
      && 1 <= |r.trace| <= 2
      && r.trace[0] == RawLine(call.kind, call.element)
      && (|r.trace| == 2 <==> r.reduced.Some?)
      && (r.reduced.Some? ==> r.trace[1] == ReducedLine(r.reduced.value))
  {
    if call.kind == BlenderEvent.NodeUpdate then StepResult(wave, None, [])
    else
      var grown := wave + [Event(call.kind, call.element)];
      var rawTrace := if call.debug then [RawLine(call.kind, call.element)] else [];
      if !IsWaveEnd(grown) then StepResult(grown, None, rawTrace)
      else
        var event := Reduce(grown);
        var reducedTrace := if call.debug then [ReducedLine(event)] else [];
        StepResult([], Some(event), rawTrace + reducedTrace)
  }

  /** A wave-ending event empties the wave, whatever it held, and yields one reduced event. */
  lemma WaveEndFlushes(wave: Wave, call: Call)
    requires Terminating(call.kind)
    ensures NewEvent(wave, call).wave == []
    ensures NewEvent(wave, call).reduced.Some?
  {
  }

  /** The debug preference only decides what is logged, never the wave or the reduction. */
  lemma DebugOnlyAffectsTrace(wave: Wave, call: Call, debug: bool)
    ensures NewEvent(wave, call.(debug := debug)).wave == NewEvent(wave, call).wave
    ensures NewEvent(wave, call.(debug := debug)).reduced == NewEvent(wave, call).reduced
  {
  }

  /**
   The shape of the wave between two calls: no node update (they are
   dropped) and no wave-ending event (those flush the wave).
   */
  predicate Open(wave: Wave) {
    forall i :: 0 <= i < |wave| ==>
      wave[i].kind != BlenderEvent.NodeUpdate && !Terminating(wave[i].kind)
  }

  /** `new_event` keeps the wave open between calls. */
  lemma NewEventKeepsOpen(wave: Wave, call: Call)
    requires Open(wave)
    ensures Open(NewEvent(wave, call).wave)
  {
  }

  /**
   Only the leading run counts: events after the first one of another kind
   never change the reduced event.
   */
  lemma {:induction false} ReduceIgnoresTail(run: Wave, rest: Wave)
    requires |run| > 0
    requires forall i :: 0 <= i < |run| ==> run[i].kind == run[0].kind
    requires |rest| == 0 || rest[0].kind != run[0].kind
    ensures Reduce(run + rest) == Reduce(run)
  {
    LeadingRunOfRun(run, rest, run[0]);
    LeadingRunOfRun(run, [], run[0]);
    assert run + [] == run;
    assert (run + rest)[0] == run[0];
  }

  /**
   A wave made of one run of a determined kind, closed by an event of
   another kind, is reported with every element of the run.
   */
  lemma FlushReportsWholeRun(run: Wave, call: Call)
    requires |run| > 0
    requires forall i :: 0 <= i < |run| ==> run[i].kind == run[0].kind
    requires Terminating(call.kind) && call.kind != run[0].kind
    requires Classify(run[0].kind) != Ok(SverchokEvent.Undefined)
    ensures NewEvent(run, call).wave == []
    ensures NewEvent(run, call).reduced
         == Some(ReducedEvent(Classify(run[0].kind).value, Some(Elements(run))))
  {
  }

  /** The leading run of `run + rest` is `run` itself when `rest` starts with another kind. */
  lemma {:induction false} LeadingRunOfRun(run: Wave, rest: Wave, head: Event)
    requires forall i :: 0 <= i < |run| ==> run[i].kind == head.kind
    requires |rest| == 0 || rest[0].kind != head.kind
    ensures LeadingRun(run + rest, head) == run
    decreases |run|
  {
    if |run| == 0 {
      assert run + rest == rest;
    } else {
      assert (run + rest)[1..] == run[1..] + rest;
      LeadingRunOfRun(run[1..], rest, head);
    }
  }

  /**
   Grouping looks at kinds only: two waves with the same kinds in the same
   order reduce to the same Sverchok event with subject lists of the same
   length, taken position by position from each wave.
   */
  lemma {:induction false} ReduceDependsOnKinds(w1: Wave, w2: Wave)
    requires |w1| == |w2| > 0
    requires forall i :: 0 <= i < |w1| ==> w1[i].kind == w2[i].kind
    ensures Reduce(w1).kind == Reduce(w2).kind
    ensures Reduce(w1).subjects.Some? <==> Reduce(w2).subjects.Some?
    ensures Reduce(w1).subjects.Some? ==>
      var s1, s2 := Reduce(w1).subjects.value, Reduce(w2).subjects.value;
      && |s1| == |s2|
      && (forall i :: 0 <= i < |s1| ==> s1[i] == w1[i].element && s2[i] == w2[i].element)
  {
  }
}
