/**
 Concrete update waves, as Blender fires them for typical user actions, and
 the Sverchok event each one reduces to.
 */
module Scenarios {
  import opened Wrappers
  import opened Taxonomy
  import opened Records
  import opened Waves
  import opened Sessions

  /** A notification delivered with the debug preference off. */
  function Quiet(kind: BlenderEvent, subject: Subject): Call {
    Call(kind, Some(subject), false)
  }

  /** Copying three nodes reports one `copy_nodes` event listing all three, and empties the wave. */
  lemma CopyThreeNodes()
    ensures var copies := [Event(BlenderEvent.CopyNode, Some(Node(1))), Event(BlenderEvent.CopyNode, Some(Node(2))),
                           Event(BlenderEvent.CopyNode, Some(Node(3)))];
            var r := NewEvent(copies, Quiet(BlenderEvent.TreeUpdate, Tree(0)));
            r.wave == [] &&
            r.reduced == Some(ReducedEvent(SverchokEvent.CopyNodes, Some([Some(Node(1)), Some(Node(2)), Some(Node(3))])))
  {
    var copies := [Event(BlenderEvent.CopyNode, Some(Node(1))), Event(BlenderEvent.CopyNode, Some(Node(2))),
                   Event(BlenderEvent.CopyNode, Some(Node(3)))];
    FlushReportsWholeRun(copies, Quiet(BlenderEvent.TreeUpdate, Tree(0)));
    assert Elements(copies) == [Some(Node(1)), Some(Node(2)), Some(Node(3))];
  }

  /** A lone tree update reduces to an undefined event without subjects. */
  lemma LoneTreeUpdate(debug: bool)
    ensures NewEvent([], Call(BlenderEvent.TreeUpdate, Some(Tree(0)), debug)).reduced
         == Some(ReducedEvent(SverchokEvent.Undefined, None))
  {
  }

  /** A lone property change reports the changed node. */
  lemma LonePropertyUpdate(debug: bool)
    ensures NewEvent([], Call(BlenderEvent.NodePropertyUpdate, Some(Node(7)), debug)).reduced
         == Some(ReducedEvent(SverchokEvent.NodePropertyUpdate, Some([Some(Node(7))])))
  {
    var call := Call(BlenderEvent.NodePropertyUpdate, Some(Node(7)), debug);
    var wave := [Event(call.kind, call.element)];
    WaveEndFlushes([], call);
    assert [] + wave == wave;
    var subjects := Reduce(wave).subjects.value;
    assert |subjects| == 1 && subjects[0] == Some(Node(7));
    assert subjects == [Some(Node(7))];
    assert NewEvent([], call).reduced == Some(Reduce(wave));
  }

  /** Only the leading run of `add_node` events is reported; later kinds are not. */
  lemma LeadingRunOnly()
    ensures Reduce([Event(BlenderEvent.AddNode, Some(Node(1))), Event(BlenderEvent.AddNode, Some(Node(2))),
                    Event(BlenderEvent.CopyNode, Some(Node(3))), Event(BlenderEvent.TreeUpdate, Some(Tree(0)))])
         == ReducedEvent(SverchokEvent.AddNode, Some([Some(Node(1)), Some(Node(2))]))
  {
    var run := [Event(BlenderEvent.AddNode, Some(Node(1))), Event(BlenderEvent.AddNode, Some(Node(2)))];
    var rest := [Event(BlenderEvent.CopyNode, Some(Node(3))), Event(BlenderEvent.TreeUpdate, Some(Tree(0)))];
    ReduceIgnoresTail(run, rest);
    var subjects := Reduce(run).subjects.value;
    assert subjects == [Some(Node(1)), Some(Node(2))];
    assert run + rest == [Event(BlenderEvent.AddNode, Some(Node(1))), Event(BlenderEvent.AddNode, Some(Node(2))),
                    Event(BlenderEvent.CopyNode, Some(Node(3))), Event(BlenderEvent.TreeUpdate, Some(Tree(0)))];
  }

  /** The same node copied twice is listed twice: the subject list keeps repeats. */
  lemma RepeatsKept()
    ensures var copies := [Event(BlenderEvent.CopyNode, Some(Node(4))), Event(BlenderEvent.CopyNode, Some(Node(4)))];
            NewEvent(copies, Quiet(BlenderEvent.TreeUpdate, Tree(0))).reduced
            == Some(ReducedEvent(SverchokEvent.CopyNodes, Some([Some(Node(4)), Some(Node(4))])))
  {
    var copies := [Event(BlenderEvent.CopyNode, Some(Node(4))), Event(BlenderEvent.CopyNode, Some(Node(4)))];
    FlushReportsWholeRun(copies, Quiet(BlenderEvent.TreeUpdate, Tree(0)));
    assert Elements(copies) == [Some(Node(4)), Some(Node(4))];
  }

  /**
   Creating a node: the trailing `node_update` is dropped, so the wave stays
   open until the tree update closes it as one `add_node` event.
   */
  lemma NodeCreation()
    ensures var s := Run([], [Quiet(BlenderEvent.AddNode, Node(5)), Quiet(BlenderEvent.NodeUpdate, Node(5)),
                              Quiet(BlenderEvent.TreeUpdate, Tree(0))]);
            s.wave == [] &&
            s.reduced == [ReducedEvent(SverchokEvent.AddNode, Some([Some(Node(5))]))]
  {
    var add, echo, tree := Quiet(BlenderEvent.AddNode, Node(5)), Quiet(BlenderEvent.NodeUpdate, Node(5)),
                           Quiet(BlenderEvent.TreeUpdate, Tree(0));
    var added := [Event(BlenderEvent.AddNode, Some(Node(5)))];
    assert NewEvent([], add).wave == added by {
      assert [] + [Event(add.kind, add.element)] == added;
    }
    assert NewEvent(added, echo).wave == added;
    FlushReportsWholeRun(added, tree);
    assert Elements(added) == [Some(Node(5))];
    var closing := NewEvent(added, tree);
    RunCons(added, [tree]);
    assert [tree][1..] == [];
    RunCons(added, [echo, tree]);
    assert [echo, tree][1..] == [tree];
    RunCons([], [add, echo, tree]);
    assert [add, echo, tree][1..] == [echo, tree];
  }

  /** The debug log of a logged property change: the raw line, then the reduced one. */
  lemma LoggedPropertyUpdate()
    ensures NewEvent([], Call(BlenderEvent.NodePropertyUpdate, Some(Node(7)), true)).trace
         == [RawLine(BlenderEvent.NodePropertyUpdate, Some(Node(7))),
             ReducedLine(ReducedEvent(SverchokEvent.NodePropertyUpdate, Some([Some(Node(7))])))]
  {
    LonePropertyUpdate(true);
  }
}
