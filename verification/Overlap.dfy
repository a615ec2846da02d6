/** Dispatches that overlap: `process_event` reads the row without a lock, runs the
    handler, and commits without looking at the row again. */
module Overlap {
  import opened Queue

  /** `reading`: the envelope each worker has loaded, found unprocessed and not finished. */
  datatype Desk = Desk(rows: map<nat, Envelope>, reading: map<nat, nat>, log: seq<Tried>)

  datatype Act =
    | Load(worker: nat, id: nat)
    | Finish(worker: nat, ending: Ending, now: int)

  /** The dispatch commits what its handler did. */
  predicate Settles(d: Desk, act: Act) {
    act.Finish? && act.worker in d.reading && d.reading[act.worker] in d.rows
    && (d.rows[d.reading[act.worker]].name !in HANDLED || act.ending.Returned?)
  }

  function Does(d: Desk, act: Act, max: nat): Desk {
    match act
    case Load(worker, id) =>
      if worker in d.reading || id !in d.rows || d.rows[id].processedAt.Some? then d
      else d.(reading := d.reading[worker := id])
    case Finish(worker, ending, now) =>
      if worker !in d.reading || d.reading[worker] !in d.rows then d
      else
        var id := d.reading[worker];
        Desk(d.rows[id := After(d.rows[id], ending, now, max)], d.reading - {worker},
             d.log + [Tried(id, Settles(d, act))])
  }

  function Work(d: Desk, acts: seq<Act>, max: nat): Desk
    decreases |acts|
  {
    if acts == [] then d else Does(Work(d, acts[..|acts| - 1], max), acts[|acts| - 1], max)
  }

  lemma WorkOneMore(d: Desk, acts: seq<Act>, act: Act, max: nat)
    ensures Work(d, acts + [act], max) == Does(Work(d, acts, max), act, max)
  {
    assert (acts + [act])[..|acts|] == acts;
  }

  /** Nobody is at work, and nothing was settled yet that is not in the history. */
  ghost predicate Quiet(d: Desk) { d.reading == map[] && Tallies(d) }

  ghost predicate Tallies(d: Desk) {
    forall id | id in d.rows :: Commits(d.log, id) == 0 <==> d.rows[id].processedAt.None?
  }

  lemma OneActTallies(d: Desk, act: Act, max: nat)
    requires Tallies(d)
    ensures Tallies(Does(d, act, max))
    ensures forall id :: Commits(Does(d, act, max).log, id) == Commits(d.log, id)
              + if Settles(d, act) && d.reading[act.worker] == id then 1 else 0
  {
    var t := Does(d, act, max);
    if act.Finish? && t != d {
      forall id
        ensures Commits(t.log, id) ==
                Commits(d.log, id) + if Settles(d, act) && d.reading[act.worker] == id then 1 else 0
      {
        OneMore(d.log, Tried(d.reading[act.worker], Settles(d, act)), id);
      }
    }
  }

  /** A commit of an envelope that somebody else has settled since it was loaded. */
  ghost predicate Late(d: Desk, acts: seq<Act>, max: nat, id: nat, k: nat) {
    && k < |acts|
    && var mid := Work(d, acts[..k], max);
       Settles(mid, acts[k]) && mid.reading[acts[k].worker] == id && mid.rows[id].processedAt.Some?
  }

  lemma LateBefore(d: Desk, acts: seq<Act>, max: nat, id: nat)
    requires acts != []
    ensures var before := acts[..|acts| - 1];
            (exists k: nat :: Late(d, acts, max, id, k)) <==>
              (exists k: nat :: Late(d, before, max, id, k)) || Late(d, acts, max, id, |acts| - 1)
  {
    var before := acts[..|acts| - 1];
    forall k: nat | k < |before| ensures Late(d, acts, max, id, k) <==> Late(d, before, max, id, k) {
      assert before[..k] == acts[..k];
    }
  }

  /** However the dispatches of all workers interleave, what an envelope's handler did is
      committed a second time exactly if a commit comes late. */
  lemma {:induction false} CommittedTwiceExactlyIfLate(d: Desk, acts: seq<Act>, max: nat, id: nat)
    requires Quiet(d) && id in d.rows && d.rows[id].processedAt.None?
    ensures var t := Work(d, acts, max);
            && Tallies(t) && id in t.rows
            && (Commits(t.log, id) >= 2 <==> exists k: nat :: Late(d, acts, max, id, k))
    decreases |acts|
  {
    if acts != [] {
      var mid := Work(d, acts[..|acts| - 1], max);
      CommittedTwiceExactlyIfLate(d, acts[..|acts| - 1], max, id);
      OneActTallies(mid, acts[|acts| - 1], max);
      LateBefore(d, acts, max, id);
    }
  }

  /** The dispatches of one envelope do not overlap: it is loaded only while nobody
      is at work on it. */
  ghost predicate OneAtATime(d: Desk, acts: seq<Act>, max: nat, id: nat) {
    forall k | 0 <= k < |acts| && acts[k].Load? && acts[k].id == id ::
      Unread(Work(d, acts[..k], max), id)
  }

  predicate Unread(d: Desk, id: nat) { forall worker | worker in d.reading :: d.reading[worker] != id }

  /** Whoever is at work on the envelope is alone, and it is still unprocessed. */
  predicate Alone(d: Desk, id: nat) {
    && (forall a, b | a in d.reading && b in d.reading && d.reading[a] == id && d.reading[b] == id :: a == b)
    && (forall a | a in d.reading && d.reading[a] == id :: id in d.rows && d.rows[id].processedAt.None?)
  }

  lemma {:induction false} StaysAlone(d: Desk, acts: seq<Act>, max: nat, id: nat)
    requires d.reading == map[] && OneAtATime(d, acts, max, id)
    ensures Alone(Work(d, acts, max), id)
    ensures !exists k: nat :: Late(d, acts, max, id, k)
    decreases |acts|
  {
    if acts != [] {
      var before, act := acts[..|acts| - 1], acts[|acts| - 1];
      forall k | 0 <= k < |before| && before[k].Load? && before[k].id == id
        ensures Unread(Work(d, before[..k], max), id)
      {
        assert before[..k] == acts[..k] && before[k] == acts[k];
      }
      StaysAlone(d, before, max, id);
      LateBefore(d, acts, max, id);
    }
  }

  /** Then it is committed at most once. */
  lemma OneAtATimeCommitsOnce(d: Desk, acts: seq<Act>, max: nat, id: nat)
    requires Quiet(d) && id in d.rows && d.rows[id].processedAt.None? && OneAtATime(d, acts, max, id)
    ensures Commits(Work(d, acts, max).log, id) <= 1
  {
    CommittedTwiceExactlyIfLate(d, acts, max, id);
    StaysAlone(d, acts, max, id);
  }

  /** Otherwise it may be committed twice: whatever the envelope, two workers that load it
      before either is done and whose handlers return both commit. */
  lemma TwoAtATimeCommitTwice(d: Desk, a: nat, b: nat, now: int, max: nat, id: nat)
    requires Quiet(d) && id in d.rows && d.rows[id].processedAt.None? && a != b
    ensures Commits(Work(d, [Load(a, id), Load(b, id), Finish(a, Returned, now), Finish(b, Returned, now)], max).log,
                    id) == 2
  {
    var d1 := Does(d, Load(a, id), max);
    var d2 := Does(d1, Load(b, id), max);
    var d3 := Does(d2, Finish(a, Returned, now), max);
    WorkOneMore(d, [], Load(a, id), max);
    WorkOneMore(d, [Load(a, id)], Load(b, id), max);
    WorkOneMore(d, [Load(a, id), Load(b, id)], Finish(a, Returned, now), max);
    WorkOneMore(d, [Load(a, id), Load(b, id), Finish(a, Returned, now)], Finish(b, Returned, now), max);
    assert [] + [Load(a, id)] == [Load(a, id)];
    assert [Load(a, id)] + [Load(b, id)] == [Load(a, id), Load(b, id)];
    assert [Load(a, id), Load(b, id)] + [Finish(a, Returned, now)] ==
           [Load(a, id), Load(b, id), Finish(a, Returned, now)];
    assert [Load(a, id), Load(b, id), Finish(a, Returned, now)] + [Finish(b, Returned, now)]
        == [Load(a, id), Load(b, id), Finish(a, Returned, now), Finish(b, Returned, now)];
    OneActTallies(d, Load(a, id), max);
    OneActTallies(d1, Load(b, id), max);
    OneActTallies(d2, Finish(a, Returned, now), max);
    OneActTallies(d3, Finish(b, Returned, now), max);
  }
}
