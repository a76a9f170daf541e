/**
 The `Event` record and the Python equality it defines: two events, or an
 event and a bare Blender event kind, compare by kind alone.
 */
module Records {
  import opened Wrappers
  import opened Taxonomy

  /**
   The Blender object an event is about: a node or a node tree, kept as an
   opaque identifier of the host's object.
   */
  datatype Subject = Node(id: nat) | Tree(id: nat)

  /** `Event(type, updated_element)`; the element is Python's `None` when absent. */
  datatype Event = Event(kind: BlenderEvent, element: Option<Subject>)

  /** A Python value that takes part in the `==` comparisons of the module. */
  datatype Operand = Member(kind: BlenderEvent) | Record(event: Event)

  /** The Blender event kind an operand stands for. */
  function KindOf(o: Operand): BlenderEvent {
    match o
    case Member(k) => k
    case Record(e) => e.kind
  }

  /** How many of the two operands are `Event` records: the measure of `==` dispatch. */
  function RecordCount(o: Operand): nat {
    if o.Record? then 1 else 0
  }

  /**
   Python's `a == b`. An `Event` on the left answers through its own `__eq__`.
   An enum member has no `__eq__` of its own: against another member it
   compares by identity, and against an `Event` it returns `NotImplemented`,
   so Python asks the reflected `Event.__eq__` of the right operand.
   Whatever the operands, the answer is whether their kinds agree.
   */
  function Equals(a: Operand, b: Operand): (r: bool)
    decreases RecordCount(a) + RecordCount(b), 1
    ensures r <==> KindOf(a) == KindOf(b)
  {
    match a
    case Record(e) => EventEq(e, b)
    case Member(k) =>
      match b
      case Member(k') => k == k'
      case Record(e) => EventEq(e, a)
  }

  /**
   `Event.__eq__(self, other)`, which evaluates `self.type == other`: the
   event's element never takes part.
   */
  function EventEq(self: Event, other: Operand): (r: bool)
    decreases 1 + RecordCount(other), 0
    ensures r <==> self.kind == KindOf(other)
  {
    Equals(Member(self.kind), other)
  }

  /** Two events are equal exactly when their kinds are, whatever their elements. */
  lemma EventEqualityIsKindEquality(a: Event, b: Event)
    ensures Equals(Record(a), Record(b)) <==> a.kind == b.kind
    ensures a.kind == b.kind ==> Equals(Record(a), Record(b)) && Equals(Record(b), Record(a))
    ensures a.kind != b.kind ==> !Equals(Record(a), Record(b)) && !Equals(Record(b), Record(a))
  {
  }

  /** Python's `==` on these operands is symmetric, so comparison order never matters. */
  lemma EqualsSymmetric(a: Operand, b: Operand)
    ensures Equals(a, b) == Equals(b, a)
  {
  }

  /**
   Python's `x in xs` on a list: a left-to-right scan for an element that
   compares equal to `x`. (An enum member is never the same object as an
   `Event`, so the identity shortcut adds nothing here.)
   */
  function Contains(xs: seq<Operand>, x: Operand): (r: bool)
    decreases |xs|
    ensures r <==> exists i :: 0 <= i < |xs| && KindOf(xs[i]) == KindOf(x)
  {
    if |xs| == 0 then false
    else if Equals(xs[0], x) then true
    else
      assert forall i :: 1 <= i < |xs| ==> xs[i] == xs[1..][i - 1];
      Contains(xs[1..], x)
  }

  /** The operand list of enum members `[k0, k1, ...]`. */
  function Members(kinds: seq<BlenderEvent>): (r: seq<Operand>)
    ensures |r| == |kinds|
    ensures forall i :: 0 <= i < |kinds| ==> r[i] == Member(kinds[i])
  {
    seq(|kinds|, i requires 0 <= i < |kinds| => Member(kinds[i]))
  }
}
