/** What the validation of a conversation graph leaves open: cycles, and with them calls
    that go on for ever. */
module Cycles {
  import opened Domain
  import opened Graph
  import opened Walker
  import opened Reruns

  // ------------------------------------------------------- what validation accepts

  /** An end says what the call came to and leads nowhere. */
  predicate Ends(n: Node) { n.kind == EndNode && n.edges == [] && n.intent.Some? }

  /** Any other node says nothing yet and leads on, to other nodes of the graph, by labels
      of which no two are equal. */
  predicate LeadsOn(n: Node, nodes: seq<Node>) {
    && n.kind != EndNode && n.intent.None? && |n.edges| > 0
    && (forall k | 0 <= k < |n.edges| :: IdOf(nodes, n.edges[k].to) && n.edges[k].to != n.id)
    && (forall k, l | 0 <= k < l < |n.edges| :: n.edges[k].tag != n.edges[l].tag)
  }

  predicate IdOf(nodes: seq<Node>, id: string) { exists n :: n in nodes && n.id == id }

  predicate EveryNodeFits(nodes: seq<Node>) { forall n | n in nodes :: Ends(n) || LeadsOn(n, nodes) }

  lemma SoundIsFitting(nodes: seq<Node>)
    ensures AllSound(nodes) <==> EveryNodeFits(nodes)
  {
    IdsAreKnown(nodes);
    forall n | n in nodes ensures Ends(n) || LeadsOn(n, nodes) <==> NodeIsSound(n, ById(nodes).Keys) {
      forall id ensures IdOf(nodes, id) <==> id in ById(nodes) {
      }
    }
    if AllSound(nodes) {
      forall n | n in nodes ensures Ends(n) || LeadsOn(n, nodes) {
        var k :| 0 <= k < |nodes| && nodes[k] == n;
      }
    }
  }

  /** A start from which there is a path to every node. */
  ghost predicate StartsAll(nodes: seq<Node>, k: nat) {
    IsStart(nodes, k) && forall n | n in nodes :: Reachable(ById(nodes), nodes[k].id, n.id)
  }

  lemma OneStartIsAStart(nodes: seq<Node>)
    ensures OneStart(nodes) <==> exists k :: IsStart(nodes, k)
    ensures forall k: nat | IsStart(nodes, k) :: OneStart(nodes) && StartOf(nodes) == nodes[k]
  {
    forall k: nat | k < |nodes| ensures IsStart(nodes, k) <==> OnlyStart(nodes, k) {
    }
    forall k: nat | IsStart(nodes, k) ensures OneStart(nodes) && StartOf(nodes) == nodes[k] {
      var j :| 0 <= j < |nodes| && nodes[j] == StartOf(nodes);
    }
  }

  lemma ReachableIsStarted(nodes: seq<Node>)
    ensures OneStart(nodes) && AllReachable(nodes) <==> exists k :: StartsAll(nodes, k)
  {
    OneStartIsAStart(nodes);
    IdsAreKnown(nodes);
    if OneStart(nodes) {
      var k :| IsStart(nodes, k);
      assert AllReachable(nodes) <==> StartsAll(nodes, k);
    }
  }

  /** The graphs that are accepted, told from their nodes: every one ends or leads on, one at
      least ends, ids differ, and there is one start, with a path to each node. */
  lemma AcceptedExactlyIf(nodes: seq<Node>)
    ensures WellFormed(nodes) <==>
              && (forall n | n in nodes :: Ends(n) || LeadsOn(n, nodes))
              && (exists n :: n in nodes && Ends(n))
              && (forall a, b | 0 <= a < b < |nodes| :: nodes[a].id != nodes[b].id)
              && (exists k :: StartsAll(nodes, k))
  {
    SoundIsFitting(nodes);
    ReachableIsStarted(nodes);
    if EveryNodeFits(nodes) && SomeTerminal(nodes) {
      var k :| 0 <= k < |nodes| && nodes[k].Terminal();
      assert nodes[k] in nodes && Ends(nodes[k]);
    }
  }

  /** The node is the start, and the only one. */
  predicate IsStart(nodes: seq<Node>, k: nat) {
    k < |nodes| && forall j | 0 <= j < |nodes| :: nodes[j].kind == StartNode <==> j == k
  }

  // ------------------------------------------------------------------------- cycles

  ghost predicate Acyclic(flow: map<string, Node>) {
    forall p | IsPath(flow, p) && |p| > 1 :: p[0] != p[|p| - 1]
  }

  lemma {:induction false} DistinctFit(p: seq<string>, ids: set<string>)
    requires forall a, b | 0 <= a < b < |p| :: p[a] != p[b]
    requires forall x | x in p :: x in ids
    ensures |p| <= |ids|
    decreases |p|
  {
    if p != [] {
      var init, last := p[..|p| - 1], p[|p| - 1];
      assert last in p;
      forall x | x in init ensures x in ids - {last} {
        assert x in p;
      }
      DistinctFit(init, ids - {last});
    }
  }

  /** Without a cycle no path is longer than the graph has nodes. */
  lemma AcyclicPathsAreShort(flow: map<string, Node>, p: seq<string>)
    requires Acyclic(flow) && IsPath(flow, p)
    ensures |p| <= |flow|
  {
    forall a, b | 0 <= a < b < |p| ensures p[a] != p[b] {
      SliceIsPath(flow, p, a, b + 1);
      assert p[a..b + 1][0] == p[a] && p[a..b + 1][b - a] == p[b];
    }
    DistinctFit(p, flow.Keys);
  }

  lemma JoinedPath(flow: map<string, Node>, p: seq<string>, q: seq<string>)
    requires IsPath(flow, p) && IsPath(flow, q) && p[|p| - 1] == q[0]
    ensures IsPath(flow, p + q[1..])
  {
    var j := p + q[1..];
    forall i | 0 <= i < |j| - 1 ensures Leads(flow[j[i]], j[i + 1]) {
      if i < |p| - 1 {
        assert Leads(flow[p[i]], p[i + 1]);
      } else {
        assert Leads(flow[q[i - |p| + 1]], q[i - |p| + 1 + 1]);
      }
    }
  }

  lemma {:induction false} RoundAndRound(flow: map<string, Node>, p: seq<string>, cycle: seq<string>, n: nat)
      returns (long: seq<string>)
    requires IsPath(flow, p) && IsPath(flow, cycle) && |cycle| > 1 && p[|p| - 1] == cycle[0] == cycle[|cycle| - 1]
    ensures IsPath(flow, long) && long[0] == p[0] && long[|long| - 1] == cycle[0] && |long| > n
    decreases n
  {
    if n == 0 {
      long := p;
    } else {
      long := RoundAndRound(flow, p, cycle, n - 1);
      JoinedPath(flow, long, cycle);
      long := long + cycle[1..];
    }
  }

  /** Validation accepts cycles; a bound on the moves, and with it on the re-runs, is
      there exactly if the graph has none. */
  lemma BoundedExactlyIfAcyclic(nodes: seq<Node>)
    requires WellFormed(nodes)
    ensures (exists r :: Within(nodes, r)) <==> Acyclic(ById(nodes))
  {
    var flow := ById(nodes);
    if Acyclic(flow) {
      forall p | IsPath(flow, p) && p[0] == StartOf(nodes).id ensures |p| <= |flow| + 1 {
        AcyclicPathsAreShort(flow, p);
      }
      assert Within(nodes, |flow|);
    } else if r: nat :| Within(nodes, r) {
      var cycle :| IsPath(flow, cycle) && |cycle| > 1 && cycle[0] == cycle[|cycle| - 1];
      assert Reachable(flow, StartOf(nodes).id, cycle[0]);
      var p :| IsPath(flow, p) && p[0] == StartOf(nodes).id && p[|p| - 1] == cycle[0];
      var long := RoundAndRound(flow, p, cycle, r + 1);
      assert false;
    }
  }

  // Two graphs that pass validation: one goes round and may leave, in the other, a call
  // that takes the wrong turn goes round for ever.

  const START: Node := Node("s", StartNode, [Edge("aa", "x")], None)
  const ROUND: Node := Node("aa", AgentNode, [Edge("s", "back"), Edge("end", "done")], None)
  const END: Node := Node("end", EndNode, [], Some(Unclear))

  const FORK: Node := Node("s", StartNode, [Edge("end", "done"), Edge("aa", "x")], None)
  const THERE: Node := Node("aa", AgentNode, [Edge("bbbb", "on")], None)
  const AND_BACK: Node := Node("bbbb", AgentNode, [Edge("aa", "back")], None)

  const LOOP: seq<Node> := [START, ROUND, END]
  const TRAP: seq<Node> := [FORK, THERE, AND_BACK, END]

  lemma LoopLookup()
    ensures ById(LOOP) == map["s" := START, "aa" := ROUND, "end" := END]
  {
    var a, b := LOOP[..1], LOOP[..2];
    assert a == [START] && a[..0] == [] && b == [START, ROUND] && b[..1] == a && LOOP[..2] == b;
    assert ById([]) == map[] && ById(a) == map["s" := START] && ById(b) == map["s" := START, "aa" := ROUND];
  }

  lemma TrapLookup()
    ensures ById(TRAP) == map["s" := FORK, "aa" := THERE, "bbbb" := AND_BACK, "end" := END]
  {
    var a, b, c := TRAP[..1], TRAP[..2], TRAP[..3];
    assert a == [FORK] && a[..0] == [] && b == [FORK, THERE] && b[..1] == a && c == [FORK, THERE, AND_BACK]
           && c[..2] == b;
    assert ById([]) == map[] && ById(a) == map["s" := FORK] && ById(b) == map["s" := FORK, "aa" := THERE];
    assert ById(c) == map["s" := FORK, "aa" := THERE, "bbbb" := AND_BACK];
  }

  lemma ReachesItself(flow: map<string, Node>, id: string)
    requires id in flow
    ensures Reachable(flow, id, id)
  {
    assert IsPath(flow, [id]);
  }

  lemma LoopIsSound()
    ensures AllSound(LOOP)
  {
    LoopLookup();
    var ids := ById(LOOP).Keys;
    assert NodeIsSound(START, ids) && NodeIsSound(ROUND, ids) && NodeIsSound(END, ids);
  }

  lemma LoopIsReachable(flow: map<string, Node>)
    requires "s" in flow && "aa" in flow && "end" in flow && flow["s"] == START && flow["aa"] == ROUND
    ensures Reachable(flow, "s", "s") && Reachable(flow, "s", "aa") && Reachable(flow, "s", "end")
  {
    assert Leads(START, START.edges[0].to) && Leads(ROUND, ROUND.edges[1].to);
    ReachesItself(flow, "s");
    OneStepFurther(flow, "s", "s", "aa");
    OneStepFurther(flow, "s", "aa", "end");
  }

  lemma LoopIsWellFormed()
    ensures WellFormed(LOOP)
  {
    LoopLookup();
    LoopIsSound();
    LoopIsReachable(ById(LOOP));
    assert OnlyStart(LOOP, 0) && LOOP[2].Terminal();
  }

  lemma TrapIsSound()
    ensures AllSound(TRAP)
  {
    TrapLookup();
    var ids := ById(TRAP).Keys;
    assert NodeIsSound(FORK, ids) && NodeIsSound(THERE, ids) && NodeIsSound(AND_BACK, ids) && NodeIsSound(END, ids);
  }

  lemma TrapIsReachable(flow: map<string, Node>)
    requires "s" in flow && "aa" in flow && "bbbb" in flow && "end" in flow && flow["s"] == FORK && flow["aa"] == THERE
    ensures Reachable(flow, "s", "s") && Reachable(flow, "s", "end")
    ensures Reachable(flow, "s", "aa") && Reachable(flow, "s", "bbbb")
  {
    assert Leads(FORK, FORK.edges[0].to) && Leads(FORK, FORK.edges[1].to) && Leads(THERE, THERE.edges[0].to);
    ReachesItself(flow, "s");
    OneStepFurther(flow, "s", "s", "end");
    OneStepFurther(flow, "s", "s", "aa");
    OneStepFurther(flow, "s", "aa", "bbbb");
  }

  lemma TrapStarts()
    ensures DistinctIds(TRAP) && SomeTerminal(TRAP) && OneStart(TRAP) && StartOf(TRAP) == FORK
  {
    assert OnlyStart(TRAP, 0) && TRAP[3].Terminal();
    assert |TRAP[0].id| == 1 && |TRAP[1].id| == 2 && |TRAP[2].id| == 4 && |TRAP[3].id| == 3;
  }

  lemma TrapIsWellFormed()
    ensures WellFormed(TRAP)
  {
    TrapLookup();
    TrapIsSound();
    TrapStarts();
    TrapIsReachable(ById(TRAP));
  }

  /** Validation accepts a cycle. */
  lemma CyclesAreAccepted()
    ensures exists nodes :: WellFormed(nodes) && !Acyclic(ById(nodes))
  {
    LoopIsWellFormed();
    LoopLookup();
    var round := ["s", "aa", "s"];
    assert Leads(START, START.edges[0].to) && Leads(ROUND, ROUND.edges[0].to);
    assert IsPath(ById(LOOP), round) && round[0] == round[|round| - 1];
  }

  /** An end can be reached from the node. */
  ghost predicate HasAWayOut(flow: map<string, Node>, id: string) {
    exists p :: IsPath(flow, p) && p[0] == id && flow[p[|p| - 1]].Terminal()
  }

  /** It even accepts a cycle with no way to an end: a call that enters it can never
      record an outcome. */
  lemma TrapsAreAccepted()
    ensures exists nodes, id :: WellFormed(nodes) && id in ById(nodes) && !HasAWayOut(ById(nodes), id)
  {
    TrapIsWellFormed();
    TrapLookup();
    var flow, inside := ById(TRAP), {"aa", "bbbb"};
    forall id, to | id in inside && id in flow && Leads(flow[id], to) ensures to in inside {
    }
    forall p | IsPath(flow, p) && p[0] == "aa" ensures !flow[p[|p| - 1]].Terminal() {
      ClosedSetsHoldPaths(flow, inside, p);
    }
    assert "aa" in flow && !HasAWayOut(flow, "aa");
  }

  /** Without a cycle every node has a way out, so it is cycles that trap a call. */
  lemma AcyclicGraphsHaveNoTraps(nodes: seq<Node>, id: string)
    requires WellFormed(nodes) && Acyclic(ById(nodes)) && id in ById(nodes)
    ensures HasAWayOut(ById(nodes), id)
  {
    assert IsPath(ById(nodes), [id]);
    OnwardToAnEnd(nodes, [id]);
  }

  lemma {:induction false} OnwardToAnEnd(nodes: seq<Node>, p: seq<string>)
    requires WellFormed(nodes) && Acyclic(ById(nodes)) && IsPath(ById(nodes), p)
    ensures HasAWayOut(ById(nodes), p[0])
    decreases |ById(nodes)| - |p|
  {
    var flow := ById(nodes);
    var n := flow[p[|p| - 1]];
    if !n.Terminal() {
      NodeOf(nodes, p[|p| - 1]);
      assert Leads(n, n.edges[0].to);
      PathOneMore(flow, p, n.edges[0].to);
      AcyclicPathsAreShort(flow, p + [n.edges[0].to]);
      OnwardToAnEnd(nodes, p + [n.edges[0].to]);
    }
  }
}
