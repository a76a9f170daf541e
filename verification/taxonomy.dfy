/**
 The two event vocabularies of the update-event layer and the fixed table that
 translates one into the other.
 */
module Taxonomy {
  import opened Wrappers

  /** The raw notifications Blender fires (`BlenderEvents`). */
  datatype BlenderEvent =
    | TreeUpdate          // fired last, except when a node is created
    | MonadTreeUpdate
    | NodeUpdate          // may be fired last when a node is created
    | AddNode             // fired first in an update wave
    | CopyNode            // fired first in an update wave
    | FreeNode            // fired first in an update wave
    | AddLinkToNode       // only manually created links are seen
    | NodePropertyUpdate
    | Undo                // changes made by undo fire no other events

  /** The coarse events meaningful to the rest of Sverchok (`SverchokEvents`). */
  datatype SverchokEvent =
    | AddNode
    | CopyNodes
    | FreeNodes
    | NodePropertyUpdate
    | NodeLinkUpdate
    | Undo
    | Undefined           // the meaning cannot be told without inspecting the tree

  /** The `KeyError` raised when a Blender event has no entry in the table. */
  datatype UnmappedEventKind = UnmappedEventKind(kind: BlenderEvent)

  /** `EVENT_CONVERSION`: the fixed translation table. */
  const EventConversion: map<BlenderEvent, SverchokEvent> := map[
    BlenderEvent.TreeUpdate := SverchokEvent.Undefined,
    BlenderEvent.MonadTreeUpdate := SverchokEvent.Undefined,
    BlenderEvent.NodeUpdate := SverchokEvent.Undefined,
    BlenderEvent.AddNode := SverchokEvent.AddNode,
    BlenderEvent.CopyNode := SverchokEvent.CopyNodes,
    BlenderEvent.FreeNode := SverchokEvent.FreeNodes,
    BlenderEvent.AddLinkToNode := SverchokEvent.NodeLinkUpdate,
    BlenderEvent.NodePropertyUpdate := SverchokEvent.NodePropertyUpdate,
    BlenderEvent.Undo := SverchokEvent.Undo
  ]

  /** The Blender events whose Sverchok meaning is left undetermined. */
  const UndeterminedKinds: set<BlenderEvent> :=
    {BlenderEvent.TreeUpdate, BlenderEvent.MonadTreeUpdate, BlenderEvent.NodeUpdate}

  /** `EVENT_CONVERSION` has an entry for each of the nine Blender events. */
  lemma ConversionCoversTaxonomy(kind: BlenderEvent)
    ensures kind in EventConversion
  {
    match kind
    case TreeUpdate =>
    case MonadTreeUpdate =>
    case NodeUpdate =>
    case AddNode =>
    case CopyNode =>
    case FreeNode =>
    case AddLinkToNode =>
    case NodePropertyUpdate =>
    case Undo =>
  }

  /**
   `Event.get_sverchok_type_event` on an event of the given kind: a lookup in
   the table that would raise, naming the kind, for a kind without an entry.
   The table covers the whole closed taxonomy, so it never raises, and the
   meaning is undetermined exactly for the tree-level updates and the
   generic node update.
   */
  function Classify(kind: BlenderEvent): (r: Result<SverchokEvent, UnmappedEventKind>)
    ensures r.Ok?
    ensures r.Ok? ==> (r.value == SverchokEvent.Undefined <==> kind in UndeterminedKinds)
  {
    ConversionCoversTaxonomy(kind);
    if kind in EventConversion then Ok(EventConversion[kind]) else Err(UnmappedEventKind(kind))
  }

  /** Every other Blender event has a counterpart of its own: no two of them share one. */
  lemma ClassifyInjectiveOffUndetermined(a: BlenderEvent, b: BlenderEvent)
    requires a !in UndeterminedKinds && b !in UndeterminedKinds
    requires Classify(a) == Classify(b)
    ensures a == b
  {
  }

  /** Every Sverchok event is the classification of some Blender event. */
  lemma ClassifySurjective(target: SverchokEvent)
    ensures exists kind :: Classify(kind) == Ok(target)
  {
    var kind := match target
      case AddNode => BlenderEvent.AddNode
      case CopyNodes => BlenderEvent.CopyNode
      case FreeNodes => BlenderEvent.FreeNode
      case NodePropertyUpdate => BlenderEvent.NodePropertyUpdate
      case NodeLinkUpdate => BlenderEvent.AddLinkToNode
      case Undo => BlenderEvent.Undo
      case Undefined => BlenderEvent.TreeUpdate;
    assert Classify(kind) == Ok(target);
  }
}
