/** The repair of a follower's log: send, be rejected, step back, send again. */
module Repair {
  import opened Types
  import opened NodeSpec
  import opened Clusters
  import opened BaseRuns
  import opened Bounds

  /** How an exchange ends: rejections on the way, the leader's nextIndex and the follower's log. */
  datatype Repaired = Repaired(rejections: int, nextIndex: int, log: seq<Entry>)

  /** Logs of one cluster: an agreeing term at an index means equal logs up to it. */
  ghost predicate LogsMatch(a: seq<Entry>, b: seq<Entry>) {
    forall x | 0 <= x < |a| && x < |b| && a[x].term == b[x].term :: a[..x + 1] == b[..x + 1]
  }

  /** A leader i and a follower f in one term, as every reachable state has them. */
  ghost predicate Paired(i: int, f: int, l: NodeState, s: NodeState) {
    && 0 <= f < |l.nextIndex| == |l.matchIndex|
    && 0 <= l.nextIndex[f] <= |l.log|
    && l.commitIndex < |l.log| && s.commitIndex >= -1
    && s.term == l.term
    && (forall x | 0 <= x < |l.log| :: l.log[x].index == x)
    && LogsMatch(l.log, s.log)
  }

  /** The follower has the leader's entry just before j, or j is 0. */
  predicate Agree(l: NodeState, s: NodeState, j: int)
    requires j <= |l.log|
  {
    j <= 0 || (j <= |s.log| && s.log[j - 1].term == l.log[j - 1].term)
  }

  lemma {:induction false} SentDefined(i: int, f: int, l: NodeState, s: NodeState)
    requires Paired(i, f, l, s)
    ensures DefinedAppend(s, AppendFor(i, l, f))
    ensures Accepts(s, AppendFor(i, l, f)) <==> Agree(l, s, l.nextIndex[f])
    ensures Total(AppendFor(i, l, f)) == |l.log|
  {
  }

  /** The leader's next state after the follower's rejection. */
  function Back(i: int, f: int, l: NodeState, s: NodeState): NodeState
    requires 0 <= f < |l.nextIndex| == |l.matchIndex| && l.nextIndex[f] >= 1
  {
    HandleAck(i, l, Packet(0, f, i, AppendEntriesResponse(s.term, false, |s.log|))).node
  }

  lemma {:induction false} BackPaired(i: int, f: int, l: NodeState, s: NodeState)
    requires Paired(i, f, l, s) && l.nextIndex[f] >= 1
    ensures var b := Back(i, f, l, s);
            Paired(i, f, b, s) && b.nextIndex[f] == l.nextIndex[f] - 1 && b.log == l.log
  {
  }

  /** The exchange, by the handlers of both sides, until the follower accepts. */
  ghost function Exchange(i: int, f: int, l: NodeState, s: NodeState): Repaired
    requires Paired(i, f, l, s)
    decreases l.nextIndex[f]
  {
    SentDefined(i, f, l, s);
    var m := AppendFor(i, l, f);
    var o := HandleAppendEntries(s, Packet(0, i, f, m));
    if Accepts(s, m) then
      Repaired(0, l.nextIndex[f], o.node.log)
    else
      BackPaired(i, f, l, s);
      var rest := Exchange(i, f, Back(i, f, l, s), o.node);
      rest.(rejections := rest.rejections + 1)
  }

  lemma {:induction false} AcceptCompletes(i: int, f: int, l: NodeState, s: NodeState)
    requires Paired(i, f, l, s) && Accepts(s, AppendFor(i, l, f))
    ensures AcceptedLog(s, AppendFor(i, l, f)) == l.log
  {
    var j := l.nextIndex[f];
    if j > 0 {
      assert s.log[..j] == l.log[..j];
    }
    assert l.log[..j] + l.log[j..] == l.log;
  }

  lemma {:induction false} ExchangeAccepts(i: int, f: int, l: NodeState, s: NodeState)
    requires Paired(i, f, l, s) && Agree(l, s, l.nextIndex[f])
    ensures Exchange(i, f, l, s) == Repaired(0, l.nextIndex[f], l.log)
  {
    SentDefined(i, f, l, s);
    AcceptCompletes(i, f, l, s);
  }

  lemma {:induction false} ExchangeRejects(i: int, f: int, l: NodeState, s: NodeState)
    requires Paired(i, f, l, s) && !Agree(l, s, l.nextIndex[f])
    ensures l.nextIndex[f] >= 1 && Paired(i, f, Back(i, f, l, s), s)
    ensures var rest := Exchange(i, f, Back(i, f, l, s), s);
            Exchange(i, f, l, s) == rest.(rejections := rest.rejections + 1)
  {
    SentDefined(i, f, l, s);
    BackPaired(i, f, l, s);
  }

  /** How an exchange should end. */
  ghost predicate Ends(f: int, l: NodeState, s: NodeState, e: Repaired)
    requires 0 <= f < |l.nextIndex| && l.nextIndex[f] <= |l.log|
  {
    && e.log == l.log
    && 0 <= e.nextIndex <= l.nextIndex[f]
    && e.rejections == l.nextIndex[f] - e.nextIndex
    && Agree(l, s, e.nextIndex)
    && (forall j | e.nextIndex < j <= l.nextIndex[f] :: !Agree(l, s, j))
  }

  lemma {:induction false} EndsOneLater(f: int, l: NodeState, b: NodeState, s: NodeState, e: Repaired)
    requires 0 <= f < |l.nextIndex| && 0 <= f < |b.nextIndex| && 1 <= l.nextIndex[f] <= |l.log|
    requires b.log == l.log && b.nextIndex[f] == l.nextIndex[f] - 1
    requires Ends(f, b, s, e) && !Agree(l, s, l.nextIndex[f])
    ensures Ends(f, l, s, e.(rejections := e.rejections + 1))
  {
    forall j | j <= b.nextIndex[f] ensures Agree(b, s, j) <==> Agree(l, s, j) {
    }
  }

  /**
    Repair ends: after exactly one rejection for each step back, at the largest index at or below the first
    nextIndex where the logs agree, with nextIndex never below 0 and the follower's log equal to the leader's.
   */
  lemma {:induction false} RepairConverges(i: int, f: int, l: NodeState, s: NodeState)
    requires Paired(i, f, l, s)
    ensures Ends(f, l, s, Exchange(i, f, l, s))
    decreases l.nextIndex[f]
  {
    if Agree(l, s, l.nextIndex[f]) {
      ExchangeAccepts(i, f, l, s);
    } else {
      ExchangeRejects(i, f, l, s);
      BackPaired(i, f, l, s);
      var b := Back(i, f, l, s);
      RepairConverges(i, f, b, s);
      EndsOneLater(f, l, b, s, Exchange(i, f, b, s));
    }
  }

  /** A leader and a node that has come to its term, in any state of a run, are such a pair; so their repair ends. */
  lemma {:induction false} RepairInRuns(n: int, r: Run, k: nat, i: int, f: int, t: int)
    requires IsRun(n, r) && FreshVotes(n, r) && FreshAcks(n, r) && LeadsAt(r, k, i, t)
    requires |r.states[k].nodes| == n && 0 <= f < n && r.states[k].nodes[f].term <= t
    ensures var (l, s) := (r.states[k].nodes[i], AdoptTerm(r.states[k].nodes[f], t));
            Paired(i, f, l, s) && Ends(f, l, s, Exchange(i, f, l, s))
  {
    hide Exchange, Ends;
    var (l, s) := (r.states[k].nodes[i], AdoptTerm(r.states[k].nodes[f], t));
    IndicesInside(n, r, k, i);
    IndicesInside(n, r, k, f);
    forall x | 0 <= x < |l.log| && x < |s.log| && l.log[x].term == s.log[x].term
      ensures l.log[..x + 1] == s.log[..x + 1]
    {
      LogMatching(n, r, k, k, i, f, x);
    }
    RepairConverges(i, f, l, s);
  }
}
