/** app/voice/graph.py: the conversation graph and the validator that accepts it. */
module Graph {
  import opened Domain

  datatype Kind = StartNode | AgentNode | EndNode

  datatype Edge = Edge(to: string, tag: string)

  datatype Node = Node(id: string, kind: Kind, edges: seq<Edge>, intent: Option<Intent>) {
    predicate Terminal() { kind.EndNode? }
  }

  datatype GraphError =
    | NoNodes
    | DuplicateIds
    | StartCount(n: nat)
    | NoTerminal
    | TerminalWithEdges(id: string)
    | TerminalWithoutIntent(id: string)
    | IntentOnTheWay(id: string)
    | DeadEnd(id: string)
    | UnknownTarget(id: string, to: string)
    | SelfLoop(id: string)
    | DuplicateLabels(id: string)
    | Orphans(ids: set<string>)

  /** `_by_id`: a later node of the same id replaces an earlier one. */
  function ById(nodes: seq<Node>): map<string, Node> {
    if nodes == [] then map[]
    else ById(nodes[..|nodes| - 1])[nodes[|nodes| - 1].id := nodes[|nodes| - 1]]
  }

  // ------------------------------------------------------------------- paths

  predicate Leads(n: Node, to: string) { exists k :: 0 <= k < |n.edges| && n.edges[k].to == to }

  predicate IsPath(flow: map<string, Node>, p: seq<string>) {
    && p != []
    && (forall i | 0 <= i < |p| :: p[i] in flow)
    && (forall i | 0 <= i < |p| - 1 :: Leads(flow[p[i]], p[i + 1]))
  }

  ghost predicate Reachable(flow: map<string, Node>, a: string, b: string) {
    exists p :: IsPath(flow, p) && p[0] == a && p[|p| - 1] == b
  }

  /** Every target of every edge is a node. */
  predicate Closed(flow: map<string, Node>) {
    forall id | id in flow :: forall k | 0 <= k < |flow[id].edges| :: flow[id].edges[k].to in flow
  }

  lemma OneStepFurther(flow: map<string, Node>, a: string, b: string, c: string)
    requires Reachable(flow, a, b) && b in flow && c in flow && Leads(flow[b], c)
    ensures Reachable(flow, a, c)
  {
    var p :| IsPath(flow, p) && p[0] == a && p[|p| - 1] == b;
    assert IsPath(flow, p + [c]);
  }

  lemma TailIsPath(flow: map<string, Node>, p: seq<string>)
    requires IsPath(flow, p) && |p| > 1
    ensures IsPath(flow, p[1..])
  {
    forall i | 0 <= i < |p[1..]| - 1 ensures Leads(flow[p[1..][i]], p[1..][i + 1]) {
      assert Leads(flow[p[i + 1]], p[i + 1 + 1]);
    }
  }

  lemma {:induction false} ClosedSetsHoldPaths(flow: map<string, Node>, seen: set<string>, p: seq<string>)
    requires IsPath(flow, p) && p[0] in seen
    requires forall id, to | id in seen && id in flow && Leads(flow[id], to) :: to in seen
    ensures p[|p| - 1] in seen
    decreases |p|
  {
    if |p| > 1 {
      assert Leads(flow[p[0]], p[1]);
      TailIsPath(flow, p);
      ClosedSetsHoldPaths(flow, seen, p[1..]);
    }
  }

  /** The worklist's state: what was seen or waits has a path from the start, and
      nothing a seen node leads to was forgotten. */
  ghost predicate Exploring(flow: map<string, Node>, start: string, seen: set<string>, queue: seq<string>) {
    && (forall id | id in seen || id in queue :: id in flow && Reachable(flow, start, id))
    && (start in seen || start in queue)
    && (forall id, to | id in seen && id in flow && Leads(flow[id], to) :: to in seen || to in queue)
  }

  lemma SeenAgain(flow: map<string, Node>, start: string, seen: set<string>, rest: seq<string>, current: string)
    requires Exploring(flow, start, seen, rest + [current]) && current in seen
    ensures Exploring(flow, start, seen, rest)
  {
    assert forall id | id in rest :: id in rest + [current];
    assert forall id | id in rest + [current] :: id in rest || id == current;
  }

  lemma SeenFirst(flow: map<string, Node>, start: string, seen: set<string>, rest: seq<string>, current: string)
    requires Exploring(flow, start, seen, rest + [current]) && current in flow && Closed(flow)
    ensures Exploring(flow, start, seen + {current}, rest + Targets(flow[current].edges))
  {
    var before, after := rest + [current], rest + Targets(flow[current].edges);
    assert current in before;
    assert forall id | id in rest :: id in before && id in after;
    assert forall id | id in before :: id in rest || id == current;
    forall to | to in Targets(flow[current].edges) ensures to in flow && to in after && Reachable(flow, start, to) {
      OneStepFurther(flow, start, current, to);
    }
    forall to | Leads(flow[current], to) ensures to in after {
      assert to in Targets(flow[current].edges);
    }
    forall id | id in after ensures id in flow && Reachable(flow, start, id) {
      assert id in rest || id in Targets(flow[current].edges);
    }
  }

  lemma AllSeen(flow: map<string, Node>, start: string, seen: set<string>)
    requires Exploring(flow, start, seen, [])
    ensures forall id :: id in seen <==> Reachable(flow, start, id)
  {
    forall id | Reachable(flow, start, id) ensures id in seen {
      var p :| IsPath(flow, p) && p[0] == start && p[|p| - 1] == id;
      ClosedSetsHoldPaths(flow, seen, p);
    }
  }

  lemma UnseenShrinks(flow: map<string, Node>, seen: set<string>, current: string)
    requires current in flow && current !in seen
    ensures |flow.Keys - (seen + {current})| < |flow.Keys - seen|
  {
    assert flow.Keys - (seen + {current}) == (flow.Keys - seen) - {current};
  }

  /** The worklist of `_validate_reachability`: it terminates with exactly the nodes
      that have a path from the start. */
  method Reached(flow: map<string, Node>, start: string) returns (seen: set<string>)
    requires start in flow && Closed(flow)
    ensures forall id :: id in seen <==> Reachable(flow, start, id)
  {
    seen := {};
    var queue := [start];
    assert Reachable(flow, start, start) by { assert IsPath(flow, [start]); }
    while queue != []
      invariant Exploring(flow, start, seen, queue)
      decreases |flow.Keys - seen|, |queue|
    {
      var rest, current := queue[..|queue| - 1], queue[|queue| - 1];
      assert queue == rest + [current];
      assert current in queue;
      queue := rest;
      if current in seen {
        SeenAgain(flow, start, seen, rest, current);
      } else {
        SeenFirst(flow, start, seen, rest, current);
        UnseenShrinks(flow, seen, current);
        seen := seen + {current};
        queue := queue + Targets(flow[current].edges);
      }
    }
    AllSeen(flow, start, seen);
  }

  function Targets(edges: seq<Edge>): (ids: seq<string>)
    ensures forall to :: to in ids <==> exists k :: 0 <= k < |edges| && edges[k].to == to
  {
    var ids := seq(|edges|, k requires 0 <= k < |edges| => edges[k].to);
    assert forall k | 0 <= k < |edges| :: ids[k] == edges[k].to;
    ids
  }

  // -------------------------------------------------------------- what is valid

  predicate DistinctLabels(edges: seq<Edge>) {
    forall a, b | 0 <= a < b < |edges| :: edges[a].tag != edges[b].tag
  }

  /** A terminal ends the call with an outcome; any other node leads on, to nodes of
      the graph other than itself, by labels that tell its edges apart. */
  predicate NodeIsSound(n: Node, ids: set<string>) {
    if n.Terminal() then n.edges == [] && n.intent.Some?
    else
      && n.intent.None? && n.edges != []
      && (forall k | 0 <= k < |n.edges| :: n.edges[k].to in ids && n.edges[k].to != n.id)
      && DistinctLabels(n.edges)
  }

  predicate DistinctIds(nodes: seq<Node>) {
    forall a, b | 0 <= a < b < |nodes| :: nodes[a].id != nodes[b].id
  }

  predicate OnlyStart(nodes: seq<Node>, k: nat) {
    k < |nodes| && nodes[k].kind.StartNode? && forall j | 0 <= j < |nodes| && nodes[j].kind.StartNode? :: j == k
  }

  predicate OneStart(nodes: seq<Node>) {
    exists k: nat :: k < |nodes| && OnlyStart(nodes, k)
  }

  predicate SomeTerminal(nodes: seq<Node>) { exists k :: 0 <= k < |nodes| && nodes[k].Terminal() }

  predicate AllSound(nodes: seq<Node>) {
    forall k | 0 <= k < |nodes| :: NodeIsSound(nodes[k], ById(nodes).Keys)
  }

  /** The first start node. */
  function StartOf(nodes: seq<Node>): (n: Node)
    requires exists k :: 0 <= k < |nodes| && nodes[k].kind.StartNode?
    ensures n in nodes && n.kind.StartNode?
  {
    if nodes[0].kind.StartNode? then nodes[0] else StartOf(nodes[1..])
  }

  ghost predicate AllReachable(nodes: seq<Node>)
    requires OneStart(nodes)
  {
    forall id | id in ById(nodes) :: Reachable(ById(nodes), StartOf(nodes).id, id)
  }

  ghost predicate WellFormed(nodes: seq<Node>) {
    nodes != [] && DistinctIds(nodes) && OneStart(nodes) && SomeTerminal(nodes) && AllSound(nodes)
    && AllReachable(nodes)
  }

  lemma {:induction false} IdsAreKnown(nodes: seq<Node>)
    ensures forall id | id in ById(nodes) :: ById(nodes)[id].id == id && ById(nodes)[id] in nodes
    ensures forall n | n in nodes :: n.id in ById(nodes)
  {
    if nodes != [] {
      var init, last := nodes[..|nodes| - 1], nodes[|nodes| - 1];
      assert nodes == init + [last];
      IdsAreKnown(init);
    }
  }

  /** `len(_by_id) != len(nodes)` tells duplicate ids. */
  lemma {:induction false} DuplicatesShrink(nodes: seq<Node>)
    ensures |ById(nodes)| <= |nodes|
    ensures |ById(nodes)| == |nodes| <==> DistinctIds(nodes)
  {
    if nodes != [] {
      var init, last := nodes[..|nodes| - 1], nodes[|nodes| - 1];
      assert nodes == init + [last];
      DuplicatesShrink(init);
      IdsAreKnown(init);
      assert ById(nodes).Keys == ById(init).Keys + {last.id};
      assert |ById(nodes)| == |ById(nodes).Keys| && |ById(init)| == |ById(init).Keys|;
      if last.id in ById(init) {
        assert ById(nodes).Keys == ById(init).Keys;
        var n := ById(init)[last.id];
        var k :| 0 <= k < |init| && init[k] == n;
        assert nodes[k].id == nodes[|init|].id;
      } else {
        DistinctOneMore(init, last);
      }
    }
  }

  lemma DistinctOneMore(init: seq<Node>, last: Node)
    requires forall n | n in init :: n.id != last.id
    ensures DistinctIds(init + [last]) <==> DistinctIds(init)
  {
    var nodes := init + [last];
    if DistinctIds(init) {
      forall a, b | 0 <= a < b < |nodes| ensures nodes[a].id != nodes[b].id {
        assert nodes[a] in init;
      }
    } else {
      var a, b :| 0 <= a < b < |init| && init[a].id == init[b].id;
      assert nodes[a].id == nodes[b].id;
    }
  }

  lemma {:induction false} DistinctNodesAreFound(nodes: seq<Node>)
    requires DistinctIds(nodes)
    ensures forall n | n in nodes :: n.id in ById(nodes) && ById(nodes)[n.id] == n
  {
    if nodes != [] {
      var init, last := nodes[..|nodes| - 1], nodes[|nodes| - 1];
      assert nodes == init + [last];
      DistinctNodesAreFound(init);
    }
  }

  // --------------------------------------------------------------- the validator

  function Starts(nodes: seq<Node>): seq<Node> {
    if nodes == [] then []
    else Starts(nodes[..|nodes| - 1]) + if nodes[|nodes| - 1].kind.StartNode? then [nodes[|nodes| - 1]] else []
  }

  lemma {:induction false} NoStarts(nodes: seq<Node>)
    ensures Starts(nodes) == [] <==> forall k | 0 <= k < |nodes| :: !nodes[k].kind.StartNode?
  {
    if nodes != [] {
      var init, last := nodes[..|nodes| - 1], nodes[|nodes| - 1];
      assert nodes == init + [last];
      NoStarts(init);
    }
  }

  lemma OneStartMore(init: seq<Node>, last: Node)
    ensures OneStart(init + [last]) <==>
            if last.kind.StartNode? then forall k | 0 <= k < |init| :: !init[k].kind.StartNode? else OneStart(init)
  {
    var nodes := init + [last];
    assert nodes[|init|] == last;
    assert forall k | 0 <= k < |init| :: nodes[k] == init[k];
    if last.kind.StartNode? {
      assert forall k | 0 <= k < |init| && init[k].kind.StartNode? :: nodes[k].kind.StartNode? && k != |init|;
      assert (forall k | 0 <= k < |init| :: !init[k].kind.StartNode?) ==> OnlyStart(nodes, |init|);
    } else {
      forall k | 0 <= k < |init| ensures OnlyStart(init, k) <==> OnlyStart(nodes, k) {
      }
      assert !OnlyStart(nodes, |init|);
    }
  }

  lemma {:induction false} StartsAreCounted(nodes: seq<Node>)
    ensures |Starts(nodes)| == 1 <==> OneStart(nodes)
  {
    if nodes != [] {
      var init, last := nodes[..|nodes| - 1], nodes[|nodes| - 1];
      assert nodes == init + [last];
      StartsAreCounted(init);
      NoStarts(init);
      OneStartMore(init, last);
    }
  }

  function Tags(edges: seq<Edge>): set<string> {
    if edges == [] then {} else Tags(edges[..|edges| - 1]) + {edges[|edges| - 1].tag}
  }

  lemma {:induction false} TagsAreThere(edges: seq<Edge>)
    ensures forall t | t in Tags(edges) :: exists k :: 0 <= k < |edges| && edges[k].tag == t
    ensures forall k | 0 <= k < |edges| :: edges[k].tag in Tags(edges)
  {
    if edges != [] {
      var init, last := edges[..|edges| - 1], edges[|edges| - 1];
      assert edges == init + [last];
      TagsAreThere(init);
      forall t | t in Tags(edges) ensures exists k :: 0 <= k < |edges| && edges[k].tag == t {
        if t == last.tag {
          assert edges[|init|].tag == t;
        } else {
          var k :| 0 <= k < |init| && init[k].tag == t;
          assert edges[k].tag == t;
        }
      }
    }
  }

  /** `len(set(labels)) != len(labels)` tells duplicate labels. */
  lemma {:induction false} DuplicateTagsShrink(edges: seq<Edge>)
    ensures |Tags(edges)| <= |edges|
    ensures |Tags(edges)| == |edges| <==> DistinctLabels(edges)
  {
    if edges != [] {
      var init, last := edges[..|edges| - 1], edges[|edges| - 1];
      assert edges == init + [last];
      DuplicateTagsShrink(init);
      TagsAreThere(init);
      if last.tag in Tags(init) {
        assert Tags(edges) == Tags(init);
        var k :| 0 <= k < |init| && init[k].tag == last.tag;
        assert edges[k].tag == edges[|init|].tag;
      } else {
        DistinctTagsOneMore(init, last);
      }
    }
  }

  lemma DistinctTagsOneMore(init: seq<Edge>, last: Edge)
    requires forall k | 0 <= k < |init| :: init[k].tag != last.tag
    ensures DistinctLabels(init + [last]) <==> DistinctLabels(init)
  {
    var edges := init + [last];
    if DistinctLabels(init) {
      forall a, b | 0 <= a < b < |edges| ensures edges[a].tag != edges[b].tag {
        assert edges[a] == init[a];
      }
    } else {
      var a, b :| 0 <= a < b < |init| && init[a].tag == init[b].tag;
      assert edges[a].tag == edges[b].tag;
    }
  }

  /** What an error claims about a node. */
  predicate FaultyNode(n: Node, ids: set<string>, e: GraphError) {
    match e
    case TerminalWithEdges(id) => id == n.id && n.Terminal() && n.edges != []
    case TerminalWithoutIntent(id) => id == n.id && n.Terminal() && n.intent.None?
    case IntentOnTheWay(id) => id == n.id && !n.Terminal() && n.intent.Some?
    case DeadEnd(id) => id == n.id && !n.Terminal() && n.edges == []
    case UnknownTarget(id, to) => id == n.id && !n.Terminal() && Leads(n, to) && to !in ids
    case SelfLoop(id) => id == n.id && !n.Terminal() && Leads(n, n.id)
    case DuplicateLabels(id) => id == n.id && !n.Terminal() && !DistinctLabels(n.edges)
    case _ => false
  }

  /** `_validate_node`: an error exactly for an unsound node, and a true one. */
  method ValidateNode(n: Node, ids: set<string>) returns (e: Option<GraphError>)
    ensures e.None? <==> NodeIsSound(n, ids)
    ensures e.Some? ==> FaultyNode(n, ids, e.value)
  {
    if n.Terminal() {
      if n.edges != [] { return Some(TerminalWithEdges(n.id)); }
      if n.intent.None? { return Some(TerminalWithoutIntent(n.id)); }
      return None;
    }
    if n.intent.Some? { return Some(IntentOnTheWay(n.id)); }
    if n.edges == [] { return Some(DeadEnd(n.id)); }
    for k := 0 to |n.edges|
      invariant forall j | 0 <= j < k :: n.edges[j].to in ids && n.edges[j].to != n.id
    {
      var to := n.edges[k].to;
      assert Leads(n, to);
      if to !in ids { return Some(UnknownTarget(n.id, to)); }
      if to == n.id { return Some(SelfLoop(n.id)); }
    }
    DuplicateTagsShrink(n.edges);
    if |Tags(n.edges)| != |n.edges| { return Some(DuplicateLabels(n.id)); }
    return None;
  }

  /** What an error claims about a graph. */
  ghost predicate Faulty(nodes: seq<Node>, e: GraphError) {
    match e
    case NoNodes => nodes == []
    case DuplicateIds => !DistinctIds(nodes)
    case StartCount(n) => n == |Starts(nodes)| && n != 1
    case NoTerminal => !SomeTerminal(nodes)
    case Orphans(ids) =>
      && ids != {} && OneStart(nodes)
      && forall id :: id in ids <==> id in ById(nodes) && !Reachable(ById(nodes), StartOf(nodes).id, id)
    case _ => exists n :: n in nodes && FaultyNode(n, ById(nodes).Keys, e)
  }

  lemma SoundGraphsAreClosed(nodes: seq<Node>)
    requires AllSound(nodes)
    ensures Closed(ById(nodes))
  {
    IdsAreKnown(nodes);
    forall id | id in ById(nodes)
      ensures forall k | 0 <= k < |ById(nodes)[id].edges| :: ById(nodes)[id].edges[k].to in ById(nodes)
    {
      assert NodeIsSound(ById(nodes)[id], ById(nodes).Keys);
    }
  }

  method HasTerminal(nodes: seq<Node>) returns (found: bool)
    ensures found == SomeTerminal(nodes)
  {
    for k := 0 to |nodes|
      invariant forall j | 0 <= j < k :: !nodes[j].Terminal()
    {
      if nodes[k].Terminal() { return true; }
    }
    return false;
  }

  method ValidateNodes(nodes: seq<Node>) returns (e: Option<GraphError>)
    ensures e.None? <==> AllSound(nodes)
    ensures e.Some? ==> exists n :: n in nodes && FaultyNode(n, ById(nodes).Keys, e.value)
  {
    for k := 0 to |nodes|
      invariant forall j | 0 <= j < k :: NodeIsSound(nodes[j], ById(nodes).Keys)
    {
      e := ValidateNode(nodes[k], ById(nodes).Keys);
      if e.Some? { return; }
    }
    return None;
  }

  method ValidateReachability(nodes: seq<Node>) returns (e: Option<GraphError>)
    requires OneStart(nodes) && AllSound(nodes)
    ensures e.None? <==> AllReachable(nodes)
    ensures e.Some? ==> e.value.Orphans? && Faulty(nodes, e.value)
  {
    var flow := ById(nodes);
    IdsAreKnown(nodes);
    SoundGraphsAreClosed(nodes);
    var seen := Reached(flow, StartOf(nodes).id);
    var orphans := flow.Keys - seen;
    if orphans == {} {
      forall id | id in flow ensures Reachable(flow, StartOf(nodes).id, id) {
        assert id !in orphans;
      }
      return None;
    }
    e := Some(Orphans(orphans));
    assert exists id :: id in orphans;
  }

  /** `validate`: the graph is accepted exactly if it is well formed, and an error
      names a real fault. */
  method Validate(nodes: seq<Node>) returns (e: Option<GraphError>)
    ensures e.None? <==> WellFormed(nodes)
    ensures e.Some? ==> Faulty(nodes, e.value)
  {
    if nodes == [] { return Some(NoNodes); }
    DuplicatesShrink(nodes);
    if |ById(nodes)| != |nodes| { return Some(DuplicateIds); }
    StartsAreCounted(nodes);
    if |Starts(nodes)| != 1 { return Some(StartCount(|Starts(nodes)|)); }
    var ends := HasTerminal(nodes);
    if !ends { return Some(NoTerminal); }
    e := ValidateNodes(nodes);
    if e.Some? { return; }
    e := ValidateReachability(nodes);
  }
}
