# Sverchok update-event coalescing, modelled in Dafny

Sverchok receives many low-level update notifications from Blender for one
user action. `core/events.py` groups them. Each notification becomes an
`Event(type, updated_element)` record and is appended to a process-wide
*wave*. A `node_update` is dropped as uninformative. A `tree_update`,
`node_property_update` or `monad_tree_update` ends the wave. A finished wave
is reduced to one Sverchok event and then cleared. The reduced kind is the
classification of the wave's first event. Unless that kind is `undefined`,
it comes with the elements of the leading run of events that have the first
event's kind.

The model is functional. The wave is an explicit `seq<Event>` state. The
intended behaviour of `new_event` is `Waves.NewEvent`, a step function that
returns the new wave, the reduced event (if the call closed the wave) and the
lines sent to the debug log. It treats the debug log as never failing. The
code as written can raise in its debug print; that step is
`DebugSink.NewEventAsWritten` (see Findings).

Modules, following the parts of `core/events.py`:

- `Wrappers` (`wrappers.dfy`): `Option` and `Result`.
- `Taxonomy` (`taxonomy.dfy`): `BlenderEvents` and `SverchokEvents` as the
  datatypes `BlenderEvent` and `SverchokEvent`; `EVENT_CONVERSION`; and
  `get_sverchok_type_event` as `Classify`, which returns a `Result` instead
  of raising `KeyError` and is proved never to fail.
- `Records` (`records.dfy`): the `Event` record and Python's `==` as
  `core/events.py` triggers it. `Event.__eq__` compares `self.type == other`. An enum
  member has no `__eq__` of its own, so `member == event` falls back to the
  reflected `Event.__eq__`. `Contains` models the list membership test
  `in sign_of_wave_end`.
- `Waves` (`waves.dfy`): `CurrentEvents`. Contains `is_wave_end`, the
  `takewhile` leading run, `convert_wave_to_sverchok_event` (as `Reduce`) and
  `new_event` (as `NewEvent`).
- `Sessions` (`sessions.dfy`): a stream of `new_event` calls folded over the
  wave (`Run`), with lemmas about whole streams.
- `DebugSink` (`debug_sink.dfy`): `new_event` as written, including the
  debug print that can raise (see Findings).
- `Scenarios` (`scenarios.dfy`): concrete waves for typical user actions.

Subjects (the Blender `Node`/`NodeTree` behind `updated_element`) are opaque
identifiers `Node(id)` / `Tree(id)`. The debug preference is a boolean
carried by each call.

The subject list is not de-duplicated: it lists every element of the leading
run in wave order, repeats kept (`Scenarios.RepeatsKept`), and an absent
element is listed as `None`.

## Model

| member | source | states |
|---|---|---|
| `Taxonomy.ConversionCoversTaxonomy` | core/events.py:65-75 | `EVENT_CONVERSION` has an entry for every one of the nine Blender events. |
| `Taxonomy.Classify` | core/events.py:82-86 | Classification never raises the `KeyError`, and its result is `undefined` exactly for `tree_update`, `monad_tree_update` and `node_update`. |
| `Taxonomy.ClassifyInjectiveOffUndetermined` | core/events.py:69-74 | The six remaining Blender events map to six pairwise different Sverchok events. |
| `Taxonomy.ClassifySurjective` | core/events.py:47-75 | Every Sverchok event is the classification of some Blender event. |
| `Records.Equals` | core/events.py:88-89 | Python `==` between any two events or kinds is true exactly when their kinds agree. The event's element never matters. |
| `Records.EventEq` | core/events.py:88-89 | `Event.__eq__` holds exactly when the other operand has the event's kind. |
| `Records.EventEqualityIsKindEquality` | core/events.py:88-89 | Two events with the same kind compare equal both ways, whatever their elements. Events with different kinds never compare equal. |
| `Records.EqualsSymmetric` | core/events.py:88-89 | Swapping the operands never changes the result of `==`. |
| `Records.Contains` | core/events.py:112 | `x in xs` holds exactly when some item of the list has `x`'s kind. |
| `Waves.TerminatingIsWaveEndSign` | core/events.py:110-111 | A kind ends a wave exactly when it is in the list `sign_of_wave_end`. |
| `Waves.IsWaveEnd` | core/events.py:107-112 | Holds exactly when the last event's kind is `tree_update`, `node_property_update` or `monad_tree_update`. |
| `Waves.LeadingRun` | core/events.py:121 | Returns a prefix of the wave whose events all have the head's kind. The prefix is maximal: it is the whole wave, or the next event has another kind. |
| `Waves.Reduce` | core/events.py:114-122 | The reduced kind is the classification of the first event. Subjects are absent exactly when that kind is `undefined`. Otherwise they are the elements of the maximal leading run of the first event's kind, in order: non-empty and never past the first event of another kind. |
| `Waves.NewEvent` | core/events.py:95-105 | The intended step, with a debug log that never fails. A `node_update` leaves everything unchanged and logs nothing. A non-ending event is appended at the end and nothing is reduced. A wave-ending event empties the wave and yields the reduction of the grown wave. Nothing is logged with debug off. With debug on, the raw line is logged first and the reduced line second. |
| `Waves.WaveEndFlushes` | core/events.py:103-105 | In the intended step, after a wave-ending event the wave is empty, whatever it held, and one reduced event is produced. |
| `Waves.DebugOnlyAffectsTrace` | core/events.py:101-105 | In the intended step, the debug preference changes neither the new wave nor the reduced event. |
| `Waves.NewEventKeepsOpen` | core/events.py:97-105 | In the intended step, if the wave holds no `node_update` and no wave-ending event before a call, the same holds after it. |
| `Waves.ReduceIgnoresTail` | core/events.py:121-122 | Events after the first event of another kind never change the reduced event. |
| `Waves.LeadingRunOfRun` | core/events.py:121 | The leading run of `run + rest` is `run` when `run` is uniform in the head's kind and `rest` starts with another kind. |
| `Waves.ReduceDependsOnKinds` | core/events.py:116-122 | Two waves with the same kinds in the same order give the same reduced kind and subject lists of the same length, each taken position by position from its own wave. |
| `Waves.FlushReportsWholeRun` | core/events.py:103-122 | Take a uniform run of a determined kind, closed by an event of another kind. The wave is emptied and the report lists every element of the run. |
| `Sessions.Run` | core/events.py:92-105 | The class-level wave is carried from one call to the next; each call adds at most one reduced event and at most two log lines, and an empty stream leaves the wave as it was. |
| `Sessions.RunKeepsOpen` | core/events.py:95-105 | Between intended steps, over any stream, the wave never holds a `node_update` or a wave-ending event. |
| `Sessions.RunReportsEachFlush` | core/events.py:103-105 | A stream yields exactly one reduced event per wave-ending call. |
| `Sessions.RunConcat` | core/events.py:92-105 | Running two streams one after the other is the same as running their concatenation: the wave is the only state carried between calls. |
| `Sessions.NodeUpdatesInvisible` | core/events.py:97-99 | Removing every `node_update` call from a stream changes nothing, wherever those calls stood. This includes the log. |
| `Sessions.RunIgnoresDebug` | core/events.py:101-105 | Under the intended step, two streams that differ only in the debug preference end with the same wave and the same reduced events. |
| `Sessions.UnloggedRunIsSilent` | core/events.py:101-122 | With the debug preference off in every call, nothing is logged. |
| `Sessions.DebugSwitchedOnMidStream` | core/events.py:124-127 | Turning the debug preference on mid-stream logs only the calls that follow. Nothing earlier is replayed. |
| `Scenarios.CopyThreeNodes` | core/events.py:121-122 | Three `copy_node` events closed by a tree update reduce to `copy_nodes` with all three nodes, and the wave is emptied. |
| `Scenarios.LoneTreeUpdate` | core/events.py:116-119 | A lone `tree_update` reduces to `undefined` with no subject list. |
| `Scenarios.LonePropertyUpdate` | core/events.py:108-122 | A lone `node_property_update` reduces to `node_property_update` listing its node. |
| `Scenarios.LeadingRunOnly` | core/events.py:121-122 | In `[add_node n1, add_node n2, copy_node n3, tree_update T]` only `n1, n2` are listed. |
| `Scenarios.RepeatsKept` | core/events.py:121-122 | The same node copied twice is listed twice. |
| `Scenarios.NodeCreation` | core/events.py:97-105 | In `add_node`, `node_update`, `tree_update`, the `node_update` is dropped and one `add_node` event is reported. |
| `Scenarios.LoggedPropertyUpdate` | core/events.py:101-122 | With debug on, a lone property change logs its raw line and then its reduced line. |
| `DebugSink.ElementNames` | core/events.py:59 | Reading the names of a subject list raises exactly when some element is missing; otherwise it yields one name per element, in order. |
| `DebugSink.NewEventAsWritten` | core/events.py:95-122 | Defined from the code's own steps, including the name-reading print. Proved: the print raises exactly when debug is on, the intended step reduces, and the reduced subject list holds a missing element; then the grown wave is kept. Otherwise the wave is the intended step's. |
| `DebugSink.UndoWithoutElementStallsWave` | core/events.py:59 | `undo` without an element, then `tree_update`, with debug on, leaves a non-empty wave. |
| `DebugSink.StallPersists` | core/events.py:103-122 | While debug stays on, such a wave keeps raising on every wave-ending call and keeps its first event. |

## Left out

- Waves.NewEvent: models the intended step, whose debug log never fails. In debug mode the code as written can raise `AttributeError` from `SverchokEvents.print` and skip the clear at core/events.py:105; that is modelled only in `DebugSink.NewEventAsWritten`. `Sessions` and the `Waves` lemmas about whole calls describe the intended step.
- Console formatting of `BlenderEvents.print` and `SverchokEvents.print` (core/events.py:38-44, 56-62) is not modelled. The log is a list of typed lines. Whether the print raises is modelled in `DebugSink`.
- `is_in_debug_mode` and `sv_preferences` (core/events.py:124-127) read a host preference. This becomes a boolean carried by each call.
- Waves.NewEvent: reads the debug preference once per call. `core/events.py` reads it twice, at lines 101 and 117, so a change of the preference between those two reads within one call is not modelled.
- Waves.NewEvent: always returns the reduced subject list. `core/events.py` computes it only in debug mode, where it is only printed. The list is otherwise unobservable.
- Blender's `Node` and `NodeTree` behind `updated_element` are foreign host objects. They are opaque identifiers here.
- Python's identity shortcut in list membership is left out, because an enum member is never the same object as an `Event`.
- `nodes/cad/merge_mesh_2d_light.py` is left out. It holds node registration, sockets and UI drawing, and its `process` is empty.
- Concurrency is not modelled: Blender delivers notifications on one thread, one at a time.

## Findings

| source | as written | input that shows it | evidently intended | confidence | as-written member | corrected member |
|---|---|---|---|---|---|---|
| core/events.py:59, 104-105 | In debug mode `SverchokEvents.print` reads `.name` of every listed element. An element that is `None` (the default of `new_event`) raises `AttributeError` inside `convert_wave_to_sverchok_event`. `events_wave.clear()` is then skipped, so the wave is never emptied again while debug stays on. | Debug on; `new_event(undo)` with no element; then `new_event(tree_update, tree)`. | Every wave-ending event empties the wave (`Waves.WaveEndFlushes`), and the debug log does not affect the wave (`Waves.DebugOnlyAffectsTrace`). | medium, not executed | `DebugSink.NewEventAsWritten` (`DebugSink.UndoWithoutElementStallsWave`, `DebugSink.StallPersists`) | `Waves.NewEvent` (`Waves.WaveEndFlushes`) |
