/**
 A stream of `new_event` calls, as Blender delivers them one after another,
 folded over the process-wide wave starting from a given state.
 */
module Sessions {
  import opened Wrappers
  import opened Taxonomy
  import opened Records
  import opened Waves

  /** The state and observations after a stream of calls. */
  datatype Session = Session(
    wave: Wave,
    reduced: seq<ReducedEvent>,
    trace: seq<TraceLine>)

  /** The optional value as a list of zero or one elements. */
  function ToSeq<T>(o: Option<T>): (r: seq<T>)
    ensures |r| <= 1
  {
    match o
    case None => []
    case Some(v) => [v]
  }

  /** No call of the stream saw the debug preference on. */
  predicate Unlogged(calls: seq<Call>) {
    forall i :: 0 <= i < |calls| ==> !calls[i].debug
  }

  /** How many calls in the stream carry a wave-ending kind. */
  function Flushes(calls: seq<Call>): nat
    decreases |calls|
  {
    if |calls| == 0 then 0
    else (if Terminating(calls[0].kind) then 1 else 0) + Flushes(calls[1..])
  }

  /** The calls that are not node updates, in order. */
  function WithoutNodeUpdates(calls: seq<Call>): (r: seq<Call>)
    decreases |calls|
  {
    if |calls| == 0 then []
    else if calls[0].kind == BlenderEvent.NodeUpdate then WithoutNodeUpdates(calls[1..])
    else [calls[0]] + WithoutNodeUpdates(calls[1..])
  }

  /**
   Runs the calls in order from `wave`, the class-level `events_wave` list
   carried from one call to the next, collecting what each call observes:
   at most one reduced event and at most two log lines per call.
   */
  function Run(wave: Wave, calls: seq<Call>): (s: Session)
    decreases |calls|
    ensures |s.reduced| <= |calls|
    ensures |s.trace| <= 2 * |calls|
    ensures |calls| == 0 ==> s.wave == wave
  {
    if |calls| == 0 then Session(wave, [], [])
    else
      var step := NewEvent(wave, calls[0]);
      Prepend(step, Run(step.wave, calls[1..]))
  }

  /** The observations of one call in front of those of the calls after it. */
  function Prepend(step: StepResult, rest: Session): Session {
    Session(rest.wave, ToSeq(step.reduced) + rest.reduced, step.trace + rest.trace)
  }

  /** The observations of `second` following those of `first`. */
  function Then(first: Session, second: Session): Session {
    Session(second.wave, first.reduced + second.reduced, first.trace + second.trace)
  }

  /** Prepending a call's observations commutes with appending a later session. */
  lemma ThenPrepend(step: StepResult, rest: Session, second: Session)
    ensures Then(Prepend(step, rest), second) == Prepend(step, Then(rest, second))
  {
  }

  /** One call, then the rest of the stream. */
  lemma RunCons(wave: Wave, calls: seq<Call>)
    requires |calls| > 0
    ensures Run(wave, calls)
         == Prepend(NewEvent(wave, calls[0]), Run(NewEvent(wave, calls[0]).wave, calls[1..]))
  {
  }

  /** Between calls the wave stays open: no node update and no wave-ending event in it. */
  lemma {:induction false} RunKeepsOpen(wave: Wave, calls: seq<Call>)
    requires Open(wave)
    ensures Open(Run(wave, calls).wave)
    decreases |calls|
  {
    if |calls| > 0 {
      NewEventKeepsOpen(wave, calls[0]);
      RunKeepsOpen(NewEvent(wave, calls[0]).wave, calls[1..]);
    }
  }

  /** Every wave-ending call yields exactly one reduced event, and no other call does. */
  lemma {:induction false} RunReportsEachFlush(wave: Wave, calls: seq<Call>)
    ensures |Run(wave, calls).reduced| == Flushes(calls)
    decreases |calls|
  {
    if |calls| > 0 {
      var step := NewEvent(wave, calls[0]);
      if Terminating(calls[0].kind) {
        WaveEndFlushes(wave, calls[0]);
      }
      RunReportsEachFlush(step.wave, calls[1..]);
    }
  }

  /** Running two streams back to back is running their concatenation. */
  lemma {:induction false} RunConcat(wave: Wave, a: seq<Call>, b: seq<Call>)
    ensures Run(wave, a + b) == Then(Run(wave, a), Run(Run(wave, a).wave, b))
    decreases |a|
  {
    if |a| == 0 {
      assert a + b == b;
    } else {
      var step := NewEvent(wave, a[0]);
      var rest := Run(step.wave, a[1..]);
      var second := Run(rest.wave, b);
      assert (a + b)[0] == a[0] && (a + b)[1..] == a[1..] + b;
      calc {
        Run(wave, a + b);
        { RunCons(wave, a + b); }
        Prepend(step, Run(step.wave, a[1..] + b));
        { RunConcat(step.wave, a[1..], b); }
        Prepend(step, Then(rest, second));
        { ThenPrepend(step, rest, second); }
        Then(Prepend(step, rest), second);
        { RunCons(wave, a); }
        Then(Run(wave, a), Run(Run(wave, a).wave, b));
      }
    }
  }

  /** Node updates are invisible wherever they occur in the stream, logging included. */
  lemma {:induction false} NodeUpdatesInvisible(wave: Wave, calls: seq<Call>)
    ensures Run(wave, WithoutNodeUpdates(calls)) == Run(wave, calls)
    decreases |calls|
  {
    if |calls| > 0 {
      NodeUpdatesInvisible(NewEvent(wave, calls[0]).wave, calls[1..]);
      if calls[0].kind != BlenderEvent.NodeUpdate {
        var kept := [calls[0]] + WithoutNodeUpdates(calls[1..]);
        assert kept[0] == calls[0];
        assert kept[1..] == WithoutNodeUpdates(calls[1..]);
      }
    }
  }

  /** Two streams that differ at most in the debug preference each call saw. */
  predicate SameNotifications(a: seq<Call>, b: seq<Call>) {
    |a| == |b| &&
    forall i :: 0 <= i < |a| ==> a[i].kind == b[i].kind && a[i].element == b[i].element
  }

  /** The debug preference never changes the waves or the reduced events, only the log. */
  lemma {:induction false} RunIgnoresDebug(wave: Wave, a: seq<Call>, b: seq<Call>)
    requires SameNotifications(a, b)
    ensures Run(wave, a).wave == Run(wave, b).wave
    ensures Run(wave, a).reduced == Run(wave, b).reduced
    decreases |a|
  {
    if |a| > 0 {
      DebugOnlyAffectsTrace(wave, a[0], b[0].debug);
      assert a[0].(debug := b[0].debug) == b[0];
      assert SameNotifications(a[1..], b[1..]) by {
        forall i | 0 <= i < |a| - 1
          ensures a[1..][i].kind == b[1..][i].kind && a[1..][i].element == b[1..][i].element
        {
          assert a[1..][i] == a[i + 1] && b[1..][i] == b[i + 1];
        }
      }
      RunIgnoresDebug(NewEvent(wave, a[0]).wave, a[1..], b[1..]);
    }
  }

  /** With the debug preference off throughout, nothing is logged. */
  lemma {:induction false} UnloggedRunIsSilent(wave: Wave, calls: seq<Call>)
    requires Unlogged(calls)
    ensures Run(wave, calls).trace == []
    decreases |calls|
  {
    if |calls| > 0 {
      assert Unlogged(calls[1..]) by {
        forall i | 0 <= i < |calls| - 1 ensures !calls[1..][i].debug {
          assert calls[1..][i] == calls[i + 1];
        }
      }
      UnloggedRunIsSilent(NewEvent(wave, calls[0]).wave, calls[1..]);
      RunCons(wave, calls);
    }
  }

  /**
   Switching the debug preference on mid-stream logs from the next call on:
   nothing seen while it was off is replayed.
   */
  lemma DebugSwitchedOnMidStream(wave: Wave, quiet: seq<Call>, loud: seq<Call>)
    requires Unlogged(quiet)
    ensures Run(wave, quiet + loud).trace == Run(Run(wave, quiet).wave, loud).trace
  {
    RunConcat(wave, quiet, loud);
    UnloggedRunIsSilent(wave, quiet);
  }
}
