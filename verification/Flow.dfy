/** app/voice/flow.py: the dunning conversation, the graph the service ships. */
module Flow {
  import opened Domain
  import opened Graph
  import opened Walker
  import Reruns

  const GREET := Node("greet", StartNode,
                      [Edge("explain", "identity_confirmed"), Edge("wrong_number", "not_the_customer")], None)
  const EXPLAIN := Node("explain", AgentNode,
                        [Edge("reason_inquiry", "acknowledged"), Edge("dispute", "disputes_charge")], None)
  const REASON_INQUIRY := Node("reason_inquiry", AgentNode,
    [Edge("ask_intent", "reason_given"), Edge("pay_later", "financial_difficulty"), Edge("dispute", "disputes_charge")],
    None)
  const ASK_INTENT := Node("ask_intent", AgentNode,
    [Edge("pay_now", "pay_now"), Edge("pay_later", "pay_later"), Edge("declined", "declined"),
     Edge("pay_later", "financial_difficulty"), Edge("dispute", "disputes_charge")], None)
  const PAY_NOW := Node("pay_now", EndNode, [], Some(RetryNow))
  const PAY_LATER := Node("pay_later", EndNode, [], Some(RetryLater))
  const DECLINED := Node("declined", EndNode, [], Some(IntentDeclined))
  const WRONG_NUMBER := Node("wrong_number", EndNode, [], Some(WrongNumber))
  const DISPUTE := Node("dispute", EndNode, [], Some(Dispute))

  const DUNNING_FLOW: seq<Node> :=
    [GREET, EXPLAIN, REASON_INQUIRY, ASK_INTENT, PAY_NOW, PAY_LATER, DECLINED, WRONG_NUMBER, DISPUTE]

  /** How many moves a node is from an end at most. */
  function Stage(id: string): nat {
    if id == "greet" then 4
    else if id == "explain" then 3
    else if id == "reason_inquiry" then 2
    else if id == "ask_intent" then 1
    else 0
  }

  lemma IdsDiffer()
    ensures DistinctIds(DUNNING_FLOW)
  {
    var f := DUNNING_FLOW;
    assert |f[0].id| == 5 && |f[1].id| == 7 && |f[2].id| == 14 && |f[3].id| == 10 && |f[4].id| == 7
        && |f[5].id| == 9 && |f[6].id| == 8 && |f[7].id| == 12 && |f[8].id| == 7;
    assert f[1].id[0] == 'e' && f[4].id[0] == 'p' && f[8].id[0] == 'd';
  }

  predicate Found(flow: map<string, Node>, n: Node) { n.id in flow && flow[n.id] == n }

  ghost predicate AllFound(flow: map<string, Node>) {
    && Found(flow, GREET) && Found(flow, EXPLAIN) && Found(flow, REASON_INQUIRY) && Found(flow, ASK_INTENT)
    && Found(flow, PAY_NOW)
    && Found(flow, PAY_LATER) && Found(flow, DECLINED) && Found(flow, WRONG_NUMBER) && Found(flow, DISPUTE)
  }

  lemma NodesAreFound()
    ensures AllFound(ById(DUNNING_FLOW))
  {
    var f := DUNNING_FLOW;
    IdsDiffer();
    DistinctNodesAreFound(f);
    assert f[0] in f && f[1] in f && f[2] in f && f[3] in f && f[4] in f && f[5] in f && f[6] in f && f[7] in f
           && f[8] in f;
  }

  lemma EveryNodeIsSound()
    ensures AllSound(DUNNING_FLOW)
  {
    IdsDiffer();
    NodesAreFound();
    var ids := ById(DUNNING_FLOW).Keys;
    assert NodeIsSound(GREET, ids) && NodeIsSound(EXPLAIN, ids) && NodeIsSound(REASON_INQUIRY, ids);
    AskIntentIsSound(ids);
  }

  lemma AskIntentIsSound(ids: set<string>)
    requires {"pay_now", "pay_later", "declined", "dispute"} <= ids
    ensures NodeIsSound(ASK_INTENT, ids)
  {
  }

  lemma OnlyGreetStarts()
    ensures OneStart(DUNNING_FLOW) && StartOf(DUNNING_FLOW) == GREET
  {
    assert OnlyStart(DUNNING_FLOW, 0);
  }

  lemma Onward(flow: map<string, Node>, n: Node, k: nat)
    requires n.id in flow && flow[n.id] == n && k < |n.edges| && n.edges[k].to in flow && Reachable(flow, "greet", n.id)
    ensures Reachable(flow, "greet", n.edges[k].to)
  {
    assert Leads(n, n.edges[k].to);
    OneStepFurther(flow, "greet", n.id, n.edges[k].to);
  }

  lemma TheWayDown(flow: map<string, Node>)
    requires AllFound(flow)
    ensures Reachable(flow, "greet", "greet") && Reachable(flow, "greet", "explain")
    ensures Reachable(flow, "greet", "reason_inquiry") && Reachable(flow, "greet", "ask_intent")
  {
    assert Reachable(flow, "greet", "greet") by { assert IsPath(flow, ["greet"]); }
    Onward(flow, GREET, 0);
    Onward(flow, EXPLAIN, 0);
    Onward(flow, REASON_INQUIRY, 0);
  }

  lemma TheWaysOut(flow: map<string, Node>)
    requires AllFound(flow)
    requires Reachable(flow, "greet", "greet") && Reachable(flow, "greet", "explain")
             && Reachable(flow, "greet", "ask_intent")
    ensures Reachable(flow, "greet", "wrong_number") && Reachable(flow, "greet", "dispute")
    ensures Reachable(flow, "greet", "pay_now") && Reachable(flow, "greet", "pay_later")
            && Reachable(flow, "greet", "declined")
  {
    Onward(flow, GREET, 1);
    Onward(flow, EXPLAIN, 1);
    Onward(flow, ASK_INTENT, 0);
    Onward(flow, ASK_INTENT, 1);
    Onward(flow, ASK_INTENT, 2);
  }

  /** The nodes of the flow are the nine. */
  lemma IdsAreTheNodes(id: string)
    requires id in ById(DUNNING_FLOW)
    ensures exists k :: 0 <= k < 9 && DUNNING_FLOW[k].id == id && DUNNING_FLOW[k] == ById(DUNNING_FLOW)[id]
  {
    IdsAreKnown(DUNNING_FLOW);
    var k :| 0 <= k < |DUNNING_FLOW| && DUNNING_FLOW[k] == ById(DUNNING_FLOW)[id];
  }

  predicate IsName(id: string) {
    || id == "greet" || id == "explain" || id == "reason_inquiry" || id == "ask_intent"
    || id == "pay_now" || id == "pay_later" || id == "declined" || id == "wrong_number" || id == "dispute"
  }

  lemma IdsAreNames(id: string)
    requires id in ById(DUNNING_FLOW)
    ensures IsName(id)
  {
    IdsAreTheNodes(id);
  }

  lemma EveryNameIsReached(flow: map<string, Node>)
    requires AllFound(flow)
    ensures forall id | IsName(id) :: Reachable(flow, "greet", id)
  {
    TheWayDown(flow);
    TheWaysOut(flow);
  }

  lemma EveryNodeIsReachable()
    ensures OneStart(DUNNING_FLOW) && AllReachable(DUNNING_FLOW)
  {
    var flow := ById(DUNNING_FLOW);
    OnlyGreetStarts();
    NodesAreFound();
    EveryNameIsReached(flow);
    forall id | id in flow ensures Reachable(flow, "greet", id) {
      IdsAreNames(id);
    }
  }

  /** The shipped flow passes validation. */
  lemma DunningIsWellFormed()
    ensures WellFormed(DUNNING_FLOW)
  {
    IdsDiffer();
    EveryNodeIsSound();
    EveryNodeIsReachable();
    assert SomeTerminal(DUNNING_FLOW) by { assert DUNNING_FLOW[4].Terminal(); }
  }

  predicate Falls(n: Node) { forall k | 0 <= k < |n.edges| :: Stage(n.edges[k].to) < Stage(n.id) }

  lemma EveryNodeFalls()
    ensures forall k | 0 <= k < 9 :: Falls(DUNNING_FLOW[k])
  {
    assert Falls(GREET) && Falls(EXPLAIN) && Falls(REASON_INQUIRY);
    assert Falls(ASK_INTENT) by {
      forall k | 0 <= k < |ASK_INTENT.edges| ensures Stage(ASK_INTENT.edges[k].to) == 0 {
      }
    }
  }

  lemma StagesFall()
    ensures forall id, to | id in ById(DUNNING_FLOW) && Leads(ById(DUNNING_FLOW)[id], to) :: Stage(to) < Stage(id)
  {
    EveryNodeFalls();
    forall id, to | id in ById(DUNNING_FLOW) && Leads(ById(DUNNING_FLOW)[id], to) ensures Stage(to) < Stage(id) {
      IdsAreTheNodes(id);
    }
  }

  /** A call on the shipped flow takes at most four moves. */
  lemma FourMovesAtMost()
    ensures OneStart(DUNNING_FLOW) && Reruns.Within(DUNNING_FLOW, 4)
  {
    OnlyGreetStarts();
    StagesFall();
    forall p | IsPath(ById(DUNNING_FLOW), p) && p[0] == StartOf(DUNNING_FLOW).id ensures |p| <= 5 {
      Reruns.RanksBoundPaths(ById(DUNNING_FLOW), Stage, p);
    }
  }

  /** Whatever labels the model picks, a dunning call asks for fourteen re-runs at most. */
  lemma FourteenRerunsAtMost(labels: seq<Said>)
    ensures OneStart(DUNNING_FLOW)
            && Reruns.Talked(ById(DUNNING_FLOW), Reruns.Started(DUNNING_FLOW), labels).reruns <= 14
  {
    OnlyGreetStarts();
    DunningIsWellFormed();
    FourMovesAtMost();
    Reruns.RerunsAreBounded(DUNNING_FLOW, 4, labels);
  }

  lemma NoEmptyLabel()
    ensures Reruns.Unknown(ById(DUNNING_FLOW), "")
  {
    assert NoTag(GREET) && NoTag(EXPLAIN) && NoTag(REASON_INQUIRY) && NoTag(ASK_INTENT);
    forall id | id in ById(DUNNING_FLOW) ensures EdgeFor(ById(DUNNING_FLOW)[id].edges, "").None? {
      IdsAreTheNodes(id);
      assert NoTag(ById(DUNNING_FLOW)[id]);
      var e := EdgeFor(ById(DUNNING_FLOW)[id].edges, "");
    }
  }

  predicate NoTag(n: Node) { forall k | 0 <= k < |n.edges| :: n.edges[k].tag != "" }

  /** And some choice of labels makes it ask for all fourteen. */
  lemma FourteenIsReached() returns (labels: seq<Said>)
    ensures OneStart(DUNNING_FLOW)
            && Reruns.Talked(ById(DUNNING_FLOW), Reruns.Started(DUNNING_FLOW), labels).reruns == 14
  {
    var p := ["greet", "explain", "reason_inquiry", "ask_intent", "pay_now"];
    OnlyGreetStarts();
    DunningIsWellFormed();
    NoEmptyLabel();
    NodesAreFound();
    TheLongWay(ById(DUNNING_FLOW), p);
    labels := Reruns.TheBoundIsReached(DUNNING_FLOW, p, Said("", None));
  }

  lemma TheLongWay(flow: map<string, Node>, p: seq<string>)
    requires AllFound(flow) && p == ["greet", "explain", "reason_inquiry", "ask_intent", "pay_now"]
    ensures IsPath(flow, p)
  {
    assert Leads(GREET, GREET.edges[0].to) && Leads(EXPLAIN, EXPLAIN.edges[0].to);
    assert Leads(REASON_INQUIRY, REASON_INQUIRY.edges[0].to) && Leads(ASK_INTENT, ASK_INTENT.edges[0].to);
  }
}
