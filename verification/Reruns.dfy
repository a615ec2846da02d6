/** app/voice/pipecat_agent.py, the tool call the model moves the conversation with:
    how often a call may ask the model to run again, and what it records. */
module Reruns {
  import opened Domain
  import opened Graph
  import opened Walker
  import Lifecycle

  const MAX_TRANSITION_RETRIES: nat := 2

  /** `reruns` counts the tool results that asked for another inference. */
  datatype Talk = Talk(walk: State, rejections: nat, reruns: nat, finished: bool)

  function Started(nodes: seq<Node>): Talk
    requires OneStart(nodes)
  {
    Talk(Begin(nodes), 0, 0, false)
  }

  function Replied(c: Talk, t: State, r: Option<Rejection>): Talk {
    if r.None? then Talk(t, 0, c.reruns + 1, c.finished || t.node.Terminal())
    else Talk(t, c.rejections + 1, c.reruns + if c.rejections + 1 <= MAX_TRANSITION_RETRIES then 1 else 0, c.finished)
  }

  /** `on_transition` with `_reject_transition`. */
  function Asked(flow: map<string, Node>, c: Talk, tag: string, utterance: Option<string>): Talk {
    Replied(c, Moved(flow, c.walk, tag, utterance).0, Moved(flow, c.walk, tag, utterance).1)
  }

  function Talked(flow: map<string, Node>, c: Talk, labels: seq<Said>): Talk
    decreases |labels|
  {
    if labels == [] then c
    else
      var last := labels[|labels| - 1];
      Asked(flow, Talked(flow, c, labels[..|labels| - 1]), last.tag, last.utterance)
  }

  // ------------------------------------------------------------------ the bound

  /** No path from the start has more than `r` edges. */
  ghost predicate Within(nodes: seq<Node>, r: nat)
    requires OneStart(nodes)
  {
    forall p | IsPath(ById(nodes), p) && p[0] == StartOf(nodes).id :: |p| <= r + 1
  }

  /** Re-runs asked for, with the retries still left at this node, against the moves
      made: the lexicographic measure, summed. */
  predicate Paid(c: Talk) {
    var moves: int := |c.walk.visited| - 1;
    c.reruns + MAX_TRANSITION_RETRIES - Min(c.rejections, MAX_TRANSITION_RETRIES)
    <= moves + MAX_TRANSITION_RETRIES * (moves + 1)
  }

  lemma AskedIsPaid(flow: map<string, Node>, c: Talk, tag: string, utterance: Option<string>)
    requires Paid(c)
    ensures Paid(Asked(flow, c, tag, utterance))
  {
  }

  lemma {:induction false} EveryRerunIsPaid(flow: map<string, Node>, c: Talk, labels: seq<Said>)
    requires Paid(c)
    ensures Paid(Talked(flow, c, labels))
    decreases |labels|
  {
    if labels != [] {
      EveryRerunIsPaid(flow, c, labels[..|labels| - 1]);
    }
  }

  lemma {:induction false} TalkWalks(flow: map<string, Node>, c: Talk, labels: seq<Said>)
    ensures Talked(flow, c, labels).walk == Walk(flow, c.walk, labels)
    decreases |labels|
  {
    if labels != [] {
      TalkWalks(flow, c, labels[..|labels| - 1]);
    }
  }

  /** Whatever labels the model picks, a call on a validated graph whose longest path
      has r edges asks for at most r + 2 (r + 1) re-runs. */
  lemma RerunsAreBounded(nodes: seq<Node>, r: nat, labels: seq<Said>)
    requires WellFormed(nodes) && Within(nodes, r)
    ensures Talked(ById(nodes), Started(nodes), labels).reruns <= r + MAX_TRANSITION_RETRIES * (r + 1)
  {
    EveryRerunIsPaid(ById(nodes), Started(nodes), labels);
    TalkWalks(ById(nodes), Started(nodes), labels);
    LogIsACompleteRecord(nodes, labels);
  }

  lemma TalkedOneMore(flow: map<string, Node>, c: Talk, labels: seq<Said>, l: Said)
    ensures Talked(flow, c, labels + [l]) == Asked(flow, Talked(flow, c, labels), l.tag, l.utterance)
  {
    assert (labels + [l])[..|labels|] == labels;
  }

  /** A label no node knows. */
  predicate Unknown(flow: map<string, Node>, tag: string) {
    forall id | id in flow :: EdgeFor(flow[id].edges, tag).None?
  }

  ghost predicate Dawdled(nodes: seq<Node>, p: seq<string>, labels: seq<Said>)
    requires OneStart(nodes)
  {
    var c := Talked(ById(nodes), Started(nodes), labels);
    && c.walk.visited == p && c.walk == Walk(ById(nodes), Begin(nodes), labels)
    && c.rejections == MAX_TRANSITION_RETRIES
    && c.reruns == |p| - 1 + MAX_TRANSITION_RETRIES * |p|
  }

  /** Two refusals at a node cost two re-runs and lead nowhere. */
  lemma TwoRefusals(nodes: seq<Node>, labels: seq<Said>, bad: Said) returns (more: seq<Said>)
    requires WellFormed(nodes) && Unknown(ById(nodes), bad.tag)
    requires Talked(ById(nodes), Started(nodes), labels).rejections == 0
    ensures var c, d := Talked(ById(nodes), Started(nodes), labels), Talked(ById(nodes), Started(nodes), more);
            d.walk.node == c.walk.node && d.walk.visited == c.walk.visited && d.rejections == 2
            && d.reruns == c.reruns + 2
            && d.walk == Walk(ById(nodes), Begin(nodes), more)
  {
    var flow := ById(nodes);
    more := labels + [bad] + [bad];
    TalkedOneMore(flow, Started(nodes), labels, bad);
    TalkedOneMore(flow, Started(nodes), labels + [bad], bad);
    TalkWalks(flow, Started(nodes), labels);
    TalkWalks(flow, Started(nodes), more);
    LogIsACompleteRecord(nodes, labels);
    assert EdgeFor(flow[Walk(flow, Begin(nodes), labels).node.id].edges, bad.tag).None?;
  }

  lemma SliceIsPath(flow: map<string, Node>, p: seq<string>, a: nat, b: nat)
    requires IsPath(flow, p) && a < b <= |p|
    ensures IsPath(flow, p[a..b])
  {
    forall i | 0 <= i < b - a - 1 ensures Leads(flow[p[a..b][i]], p[a..b][i + 1]) {
      assert Leads(flow[p[a + i]], p[a + i + 1]);
    }
  }

  /** The bound is reached: along every path there is a choice of labels that costs two
      refusals at each of its nodes and a re-run for each of its edges. */
  lemma {:induction false} TheBoundIsReached(nodes: seq<Node>, p: seq<string>, bad: Said) returns (labels: seq<Said>)
    requires WellFormed(nodes) && IsPath(ById(nodes), p) && p[0] == StartOf(nodes).id && Unknown(ById(nodes), bad.tag)
    ensures Dawdled(nodes, p, labels)
    decreases |p|
  {
    if |p| == 1 {
      labels := TwoRefusals(nodes, [], bad);
    } else {
      SliceIsPath(ById(nodes), p, 0, |p| - 1);
      labels := TheBoundIsReached(nodes, p[..|p| - 1], bad);
      assert Leads(ById(nodes)[p[|p| - 2]], p[|p| - 2 + 1]);
      assert p == p[..|p| - 1] + [p[|p| - 1]];
      labels := DawdledFurther(nodes, p[..|p| - 1], p[|p| - 1], labels, bad);
    }
  }

  lemma DawdledFurther(nodes: seq<Node>, q: seq<string>, to: string, labels: seq<Said>, bad: Said)
      returns (more: seq<Said>)
    requires WellFormed(nodes) && IsPath(ById(nodes), q) && Dawdled(nodes, q, labels)
    requires to in ById(nodes) && Leads(ById(nodes)[q[|q| - 1]], to) && Unknown(ById(nodes), bad.tag)
    ensures Dawdled(nodes, q + [to], more)
  {
    var l := OneMoveMore(nodes, q, to, labels);
    more := TwoRefusals(nodes, labels + [l], bad);
  }

  lemma OneMoveMore(nodes: seq<Node>, q: seq<string>, to: string, labels: seq<Said>) returns (l: Said)
    requires WellFormed(nodes) && IsPath(ById(nodes), q) && Dawdled(nodes, q, labels)
    requires to in ById(nodes) && Leads(ById(nodes)[q[|q| - 1]], to)
    ensures var c := Talked(ById(nodes), Started(nodes), labels + [l]);
            c.walk.visited == q + [to] && c.rejections == 0 && c.reruns == |q| + MAX_TRANSITION_RETRIES * |q|
  {
    var flow := ById(nodes);
    LogIsACompleteRecord(nodes, labels);
    var n := Walk(flow, Begin(nodes), labels).node;
    var k :| 0 <= k < |n.edges| && n.edges[k].to == to;
    l := Said(n.edges[k].tag, None);
    NodeOf(nodes, n.id);
    NodeOf(nodes, to);
    OneEdgePerLabel(n.edges, k);
    TalkedOneMore(flow, Started(nodes), labels, l);
  }

  /** Ranks that fall along every edge bound every path. */
  lemma {:induction false} RanksBoundPaths(flow: map<string, Node>, rank: string -> nat, p: seq<string>)
    requires forall id, to | id in flow && Leads(flow[id], to) :: rank(to) < rank(id)
    requires IsPath(flow, p)
    ensures |p| <= rank(p[0]) + 1
    decreases |p|
  {
    if |p| > 1 {
      assert Leads(flow[p[0]], p[0 + 1]);
      TailIsPath(flow, p);
      RanksBoundPaths(flow, rank, p[1..]);
    }
  }

  // ---------------------------------------------------------------- what is recorded

  datatype CallResult = CallResult(intent: Intent, status: CallStatus, finalNode: string, transitions: seq<Observation>)

  /** What `finalise` hands back: the intent of the end reached, nothing certain from a
      call that ended on the way or whose lines were not heard. */
  function ResultOf(s: State, ttsFailures: seq<string>): CallResult {
    var heard := ttsFailures == [];
    CallResult(if heard && IntentOf(s).Some? then IntentOf(s).value else Unclear,
               if heard then Completed else CallFailed, s.node.id, s.observations)
  }

  /** The result, told from the conversation: heard or failed; the intent of the end it
      reached, unclear from one that reached none or was not heard; the node it is at and
      the whole log. */
  lemma ResultsSayWhatWasHeard(nodes: seq<Node>, labels: seq<Said>, ttsFailures: seq<string>)
    requires WellFormed(nodes)
    ensures var s := Walk(ById(nodes), Begin(nodes), labels);
            var result, heard := ResultOf(s, ttsFailures), |ttsFailures| == 0;
            && result.status == (if heard then Completed else CallFailed)
            && (heard && s.node.kind == EndNode ==> s.node.intent == Some(result.intent))
            && (!heard || s.node.kind != EndNode ==> result.intent == Unclear)
            && s.visited != [] && result.finalNode == s.visited[|s.visited| - 1] && result.transitions == s.observations
  {
    LogIsACompleteRecord(nodes, labels);
  }

  /** The conversation is marked finished exactly when it stands at an end. */
  lemma {:induction false} FinishedExactlyAtAnEnd(nodes: seq<Node>, labels: seq<Said>)
    requires WellFormed(nodes)
    ensures var c := Talked(ById(nodes), Started(nodes), labels);
            c.finished <==> c.walk.node.kind == EndNode
    decreases |labels|
  {
    if labels != [] {
      FinishedExactlyAtAnEnd(nodes, labels[..|labels| - 1]);
    }
  }

  /** Nobody is suppressed, and nothing promised, by a call that did not reach an end
      or went unheard; a case is moved exactly if the end that was reached says so. */
  lemma OnlyAHeardEndHasConsequences(nodes: seq<Node>, labels: seq<Said>, ttsFailures: seq<string>)
    requires WellFormed(nodes)
    ensures var s := Walk(ById(nodes), Begin(nodes), labels);
            var out := Lifecycle.OutcomeFor(ResultOf(s, ttsFailures).intent);
            && (out != Lifecycle.Outcome(None, false, false, false) ==> ttsFailures == [] && s.node.Terminal())
            && (ttsFailures == [] && s.node.Terminal() ==>
                s.node.intent.Some? && out == Lifecycle.OutcomeFor(s.node.intent.value))
  {
    LogIsACompleteRecord(nodes, labels);
  }

  class DunningSession {
    const walker: GraphWalker
    var rejections: nat
    var finished: bool
    var finalised: bool
    var ttsFailures: seq<string>
    ghost var reruns: nat
    ghost var results: seq<CallResult>

    constructor (w: GraphWalker)
      requires w.Valid() && w.said == []
      ensures walker == w && Valid() && Snap() == Started(w.nodes) && !finalised
    {
      walker := w;
      rejections, finished, finalised, ttsFailures := 0, false, false, [];
      reruns, results := 0, [];
    }

    ghost predicate Valid()
      reads this, walker
    {
      walker.Valid() && Paid(Snap()) && |results| == if finalised then 1 else 0
    }

    lemma NeverAsksTooOften(r: nat)
      requires Valid() && Within(walker.nodes, r)
      ensures reruns <= r + MAX_TRANSITION_RETRIES * (r + 1)
    {
      walker.AlwaysOnRecord();
    }

    ghost function Snap(): Talk
      reads this, walker
    {
      Talk(walker.Snap(), rejections, reruns, finished)
    }

    /** `on_transition`; tells whether the model is run again. */
    method OnTransition(tag: string, utterance: Option<string>) returns (runModel: bool)
      requires Valid()
      modifies `rejections, `finished, `reruns, walker
      ensures Valid() && Snap() == Asked(walker.flow, old(Snap()), tag, utterance)
      ensures reruns == old(reruns) + if runModel then 1 else 0
    {
      ghost var c := Snap();
      var refused := walker.Transition(tag, utterance);
      ghost var t := walker.Snap();
      assert Replied(c, t, refused) == Asked(walker.flow, c, tag, utterance);
      AskedIsPaid(walker.flow, c, tag, utterance);
      runModel := Answer(refused);
      assert walker.Snap() == t;
    }

    method Answer(refused: Option<Rejection>) returns (runModel: bool)
      modifies `rejections, `finished, `reruns
      ensures Snap() == Replied(old(Snap()), walker.Snap(), refused)
      ensures reruns == old(reruns) + if runModel then 1 else 0
    {
      if refused.Some? { runModel := RejectTransition(); } else { runModel := AcceptTransition(); }
    }

    method AcceptTransition() returns (runModel: bool)
      modifies `rejections, `reruns, `finished
      ensures runModel && rejections == 0 && reruns == old(reruns) + 1
      ensures finished == (old(finished) || walker.node.Terminal())
    {
      rejections := 0;
      reruns := reruns + 1;
      if walker.Finished() { finished := true; }
      return true;
    }

    /** `_reject_transition`. */
    method RejectTransition() returns (retrying: bool)
      modifies `rejections, `reruns
      ensures rejections == old(rejections) + 1
      ensures retrying == (rejections <= MAX_TRANSITION_RETRIES)
      ensures reruns == old(reruns) + if retrying then 1 else 0
    {
      rejections := rejections + 1;
      retrying := rejections <= MAX_TRANSITION_RETRIES;
      if retrying { reruns := reruns + 1; }
    }

    /** `finalise`: one result per call, however often it is asked for. */
    method Finalise()
      requires Valid()
      modifies `finalised, `results
      ensures Valid() && finalised
      ensures results == if old(finalised) then old(results) else [ResultOf(walker.Snap(), ttsFailures)]
    {
      if finalised { return; }
      finalised := true;
      var intent := if walker.Finished() && walker.node.intent.Some? then walker.node.intent.value else Unclear;
      var status := Completed;
      if ttsFailures != [] {
        intent := Unclear;
        status := CallFailed;
      }
      results := results + [CallResult(intent, status, walker.node.id, walker.observations)];
    }
  }
}
