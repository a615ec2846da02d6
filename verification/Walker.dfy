/** app/voice/walker.py: traversal of a conversation graph by labels, with its log. */
module Walker {
  import opened Domain
  import opened Graph

  datatype Rejection = AlreadyEnded(at: string) | NotAMove(tag: string, at: string)

  datatype Observation = Observation(nodeId: string, tag: string, accepted: bool, utterance: Option<string>,
                                     rejection: Option<Rejection>)

  datatype State = State(node: Node, visited: seq<string>, observations: seq<Observation>)

  function Begin(nodes: seq<Node>): State
    requires OneStart(nodes)
  {
    State(StartOf(nodes), [StartOf(nodes).id], [])
  }

  /** The first edge of that label. */
  function EdgeFor(edges: seq<Edge>, tag: string): (e: Option<Edge>)
    ensures e.Some? ==> e.value in edges && e.value.tag == tag
    ensures e.None? ==> forall k | 0 <= k < |edges| :: edges[k].tag != tag
  {
    if edges == [] then None
    else if edges[0].tag == tag then Some(edges[0])
    else EdgeFor(edges[1..], tag)
  }

  /** One label: a move, a refusal on the log, or a refusal after the end. */
  function Moved(flow: map<string, Node>, s: State, tag: string, utterance: Option<string>)
    : (State, Option<Rejection>)
  {
    if s.node.Terminal() then (s, Some(AlreadyEnded(s.node.id)))
    else
      var e := EdgeFor(s.node.edges, tag);
      if e.Some? && e.value.to in flow then
        (State(flow[e.value.to], s.visited + [flow[e.value.to].id],
               s.observations + [Observation(s.node.id, tag, true, utterance, None)]), None)
      else
        var r := NotAMove(tag, s.node.id);
        (s.(observations := s.observations + [Observation(s.node.id, tag, false, utterance, Some(r))]), Some(r))
  }

  datatype Said = Said(tag: string, utterance: Option<string>)

  function Walk(flow: map<string, Node>, s: State, labels: seq<Said>): State
    decreases |labels|
  {
    if labels == [] then s
    else
      var last := labels[|labels| - 1];
      Moved(flow, Walk(flow, s, labels[..|labels| - 1]), last.tag, last.utterance).0
  }

  function IntentOf(s: State): Option<Intent> { if s.node.Terminal() then s.node.intent else None }

  // -------------------------------------------------------------- what always holds

  /** The accepted part of a log, as labels. */
  function Accepted(log: seq<Observation>): seq<Said>
    decreases |log|
  {
    if log == [] then []
    else
      var last := log[|log| - 1];
      Accepted(log[..|log| - 1]) + if last.accepted then [Said(last.tag, last.utterance)] else []
  }

  /** The walker stands at the end of a real path from the start, and its log,
      replayed from the start, rebuilds where it stands and how it came there. */
  ghost predicate OnRecord(nodes: seq<Node>, s: State)
    requires OneStart(nodes)
  {
    OnAPath(nodes, s) && Replays(nodes, s)
  }

  ghost predicate OnAPath(nodes: seq<Node>, s: State)
    requires OneStart(nodes)
  {
    var flow := ById(nodes);
    && IsPath(flow, s.visited) && s.visited[0] == StartOf(nodes).id && s.visited[|s.visited| - 1] == s.node.id
    && s.node in nodes && flow[s.node.id] == s.node
    && (IntentOf(s).Some? <==> s.node.Terminal())
  }

  ghost predicate Replays(nodes: seq<Node>, s: State)
    requires OneStart(nodes)
  {
    var again := Walk(ById(nodes), Begin(nodes), Accepted(s.observations));
    again.node == s.node && again.visited == s.visited && |Accepted(s.observations)| == |s.visited| - 1
  }

  lemma NodeOf(nodes: seq<Node>, id: string)
    requires WellFormed(nodes) && id in ById(nodes)
    ensures ById(nodes)[id] in nodes && ById(nodes)[id].id == id && NodeIsSound(ById(nodes)[id], ById(nodes).Keys)
  {
    IdsAreKnown(nodes);
    var n := ById(nodes)[id];
    var k :| 0 <= k < |nodes| && nodes[k] == n;
    assert NodeIsSound(nodes[k], ById(nodes).Keys);
  }

  lemma BeginsOnRecord(nodes: seq<Node>)
    requires WellFormed(nodes)
    ensures OnRecord(nodes, Begin(nodes))
  {
    DistinctNodesAreFound(nodes);
    NodeOf(nodes, StartOf(nodes).id);
  }

  lemma AcceptedOneMore(log: seq<Observation>, o: Observation)
    ensures Accepted(log + [o]) == if o.accepted then Accepted(log) + [Said(o.tag, o.utterance)] else Accepted(log)
  {
    assert (log + [o])[..|log|] == log;
  }

  lemma WalkOneMore(flow: map<string, Node>, s: State, labels: seq<Said>, l: Said)
    ensures Walk(flow, s, labels + [l]) == Moved(flow, Walk(flow, s, labels), l.tag, l.utterance).0
  {
    assert (labels + [l])[..|labels|] == labels;
  }

  /** Where a label leads depends on the node alone. */
  lemma MovesAlike(flow: map<string, Node>, a: State, b: State, tag: string, utterance: Option<string>)
    requires a.node == b.node && a.visited == b.visited
    ensures Moved(flow, a, tag, utterance).0.node == Moved(flow, b, tag, utterance).0.node
    ensures Moved(flow, a, tag, utterance).0.visited == Moved(flow, b, tag, utterance).0.visited
  {
  }

  /** A refusal leaves the node and the path, and adds one row to the log while the
      call is on; after its end a label changes nothing at all. */
  lemma RefusalsOnlyLog(flow: map<string, Node>, s: State, tag: string, utterance: Option<string>)
    ensures var (t, r) := Moved(flow, s, tag, utterance);
            && (r.Some? ==> t.node == s.node && t.visited == s.visited)
            && (s.node.Terminal() ==> t == s && r.Some?)
            && (r.Some? && !s.node.Terminal() ==>
                t.observations == s.observations + [Observation(s.node.id, tag, false, utterance, r)])
            && (r.None? ==> |t.visited| == |s.visited| + 1 && t.visited[..|s.visited|] == s.visited)
  {
  }

  lemma MovesStayOnAPath(nodes: seq<Node>, s: State, tag: string, utterance: Option<string>)
    requires WellFormed(nodes) && OnAPath(nodes, s)
    ensures OnAPath(nodes, Moved(ById(nodes), s, tag, utterance).0)
  {
    if Moved(ById(nodes), s, tag, utterance).1.None? {
      var e := EdgeFor(s.node.edges, tag).value;
      NodeOf(nodes, e.to);
      assert Leads(s.node, e.to);
      PathOneMore(ById(nodes), s.visited, e.to);
    }
  }

  lemma MovesReplay(nodes: seq<Node>, s: State, tag: string, utterance: Option<string>)
    requires OneStart(nodes) && Replays(nodes, s)
    ensures Replays(nodes, Moved(ById(nodes), s, tag, utterance).0)
  {
    var flow := ById(nodes);
    var t := Moved(flow, s, tag, utterance).0;
    if !s.node.Terminal() {
      AcceptedOneMore(s.observations, t.observations[|s.observations|]);
      WalkOneMore(flow, Begin(nodes), Accepted(s.observations), Said(tag, utterance));
      MovesAlike(flow, s, Walk(flow, Begin(nodes), Accepted(s.observations)), tag, utterance);
    }
  }

  lemma MovesStayOnRecord(nodes: seq<Node>, s: State, tag: string, utterance: Option<string>)
    requires WellFormed(nodes) && OnRecord(nodes, s)
    ensures OnRecord(nodes, Moved(ById(nodes), s, tag, utterance).0)
  {
    MovesStayOnAPath(nodes, s, tag, utterance);
    MovesReplay(nodes, s, tag, utterance);
  }

  lemma PathOneMore(flow: map<string, Node>, p: seq<string>, to: string)
    requires IsPath(flow, p) && to in flow && Leads(flow[p[|p| - 1]], to)
    ensures IsPath(flow, p + [to])
  {
  }

  /** The log is a complete record: whatever labels the model picks on a graph that
      passed validation. */
  lemma {:induction false} LogIsACompleteRecord(nodes: seq<Node>, labels: seq<Said>)
    requires WellFormed(nodes)
    ensures OnRecord(nodes, Walk(ById(nodes), Begin(nodes), labels))
    decreases |labels|
  {
    if labels == [] {
      BeginsOnRecord(nodes);
    } else {
      var last := labels[|labels| - 1];
      LogIsACompleteRecord(nodes, labels[..|labels| - 1]);
      MovesStayOnRecord(nodes, Walk(ById(nodes), Begin(nodes), labels[..|labels| - 1]), last.tag, last.utterance);
    }
  }

  /** A label is accepted exactly if it is one of the node's, and then it leads where
      that one edge leads. */
  lemma LabelsDecide(nodes: seq<Node>, s: State, tag: string, utterance: Option<string>)
    requires WellFormed(nodes) && OnRecord(nodes, s)
    ensures var (t, r) := Moved(ById(nodes), s, tag, utterance);
            && (r.None? <==> exists k :: 0 <= k < |s.node.edges| && s.node.edges[k].tag == tag)
            && (forall k | 0 <= k < |s.node.edges| && s.node.edges[k].tag == tag :: t.node.id == s.node.edges[k].to)
  {
    NodeOf(nodes, s.node.id);
    forall k | 0 <= k < |s.node.edges| && s.node.edges[k].tag == tag
      ensures Moved(ById(nodes), s, tag, utterance).1.None?
              && Moved(ById(nodes), s, tag, utterance).0.node.id == s.node.edges[k].to
    {
      OneEdgePerLabel(s.node.edges, k);
      NodeOf(nodes, s.node.edges[k].to);
    }
  }

  lemma OneEdgePerLabel(edges: seq<Edge>, k: nat)
    requires DistinctLabels(edges) && k < |edges|
    ensures EdgeFor(edges, edges[k].tag) == Some(edges[k])
  {
    var e := EdgeFor(edges, edges[k].tag);
    var j :| 0 <= j < |edges| && edges[j] == e.value;
  }

  // --------------------------------------------------------------------- the object

  class GraphWalker {
    const nodes: seq<Node>
    const flow: map<string, Node>
    var node: Node
    var visited: seq<string>
    var observations: seq<Observation>
    ghost var said: seq<Said>

    constructor (ns: seq<Node>)
      requires WellFormed(ns)
      ensures nodes == ns && Valid() && said == []
    {
      nodes := ns;
      flow := ById(ns);
      node := StartOf(ns);
      visited := [StartOf(ns).id];
      observations := [];
      said := [];
    }

    function Snap(): State
      reads this
    {
      State(node, visited, observations)
    }

    /** The fields are what the labels said so far make of them. */
    ghost predicate Valid()
      reads this
    {
      WellFormed(nodes) && flow == ById(nodes) && Snap() == Walk(flow, Begin(nodes), said)
    }

    /** A walker always stands on the record. */
    lemma AlwaysOnRecord()
      requires Valid()
      ensures OnRecord(nodes, Snap()) && NodeIsSound(node, flow.Keys)
    {
      LogIsACompleteRecord(nodes, said);
      NodeOf(nodes, node.id);
    }

    predicate Finished()
      reads this
    {
      node.Terminal()
    }

    /** `transition`. None: the walker moved. */
    method Transition(tag: string, utterance: Option<string>) returns (r: Option<Rejection>)
      requires Valid()
      modifies this
      ensures Valid() && said == old(said) + [Said(tag, utterance)]
      ensures (Snap(), r) == Moved(flow, old(Snap()), tag, utterance)
    {
      AlwaysOnRecord();
      WalkOneMore(flow, Begin(nodes), said, Said(tag, utterance));
      said := said + [Said(tag, utterance)];
      r := Follow(tag, utterance);
    }

    method Follow(tag: string, utterance: Option<string>) returns (r: Option<Rejection>)
      requires !Finished() ==> NodeIsSound(node, flow.Keys)
      modifies `node, `visited, `observations
      ensures (Snap(), r) == Moved(flow, old(Snap()), tag, utterance)
    {
      var origin := node.id;
      if Finished() { return Some(AlreadyEnded(origin)); }
      for k := 0 to |node.edges|
        invariant Snap() == old(Snap())
        invariant EdgeFor(node.edges, tag) == EdgeFor(node.edges[k..], tag)
      {
        var edge := node.edges[k];
        if edge.tag == tag {
          observations := observations + [Observation(origin, tag, true, utterance, None)];
          node := flow[edge.to];
          visited := visited + [node.id];
          return None;
        }
      }
      r := Some(NotAMove(tag, origin));
      observations := observations + [Observation(origin, tag, false, utterance, r)];
    }
  }
}
