/** The base invariant over whole runs, and what follows from it: election safety and log matching. */
module BaseRuns {
  import opened Types
  import opened Clusters
  import opened History
  import opened BaseProof
  import opened BaseStep

  ghost predicate BaseInv(n: int, c: Cluster, h: History) {
    && n >= 2
    && |c.nodes| == n
    && HistoryOk(n, h)
    && (forall i | 0 <= i < n :: NodeOk(n, i, c.nodes[i], h))
    && (forall p | p in c.net :: MessageOk(n, h, p.src, p.dst, p.msg))
  }

  function NextHistory(n: int, c: Cluster, h: History, step: Step): History
    requires Enabled(n, c, step)
  {
    Observe(n, Actor(step), Before(c, step), Effect(n, c, step).node, h)
  }

  // ---------------------------------------------------------------- one step

  lemma {:induction false} EffectKept(n: int, c: Cluster, h: History, step: Step)
    requires BaseInv(n, c, h) && Enabled(n, c, step) && FreshVote(n, c, step)
    ensures Kept(n, Actor(step), Before(c, step), Effect(n, c, step), h)
  {
    var i := Actor(step);
    var s := Before(c, step);
    assert NodeOk(n, i, c.nodes[i], h);
    match step {
      case Deliver(p) => if !s.crashed { ReceiveKept(n, i, s, h, p); }
      case Resume(_) =>
        var p := c.nodes[i].queue[0];
        assert p in c.nodes[i].queue;
        ReceiveKept(n, i, s, h, p);
      case Timeout(_) =>
        if s.role == Leader {
          HeartbeatKept(n, i, s, s, h);
        } else {
          CampaignKept(n, i, s, s.(role := Candidate), h);
        }
      case Crash(_) => assert NodeOk(n, i, s.(crashed := true), h);
      case Recovery(_) =>
        var r := s.(crashed := false);
        match s.role {
          case Leader => HeartbeatKept(n, i, s, r, h);
          case Candidate => CampaignKept(n, i, s, r, h);
          case Follower =>
        }
      case ClientRequest(_, cmd, clientId) => ClientKept(n, i, s, h, cmd, clientId);
    }
  }

  lemma {:induction false} NetKept(n: int, c: Cluster, h: History, h': History, i: int, sends: seq<Send>,
                                   net: set<Packet>)
    requires Extends(h, h')
    requires forall p | p in c.net :: MessageOk(n, h, p.src, p.dst, p.msg)
    requires forall snd | snd in sends :: MessageOk(n, h', i, snd.dst, snd.msg)
    requires net <= c.net + Stamp(i, c.nextId, sends)
    ensures forall p | p in net :: MessageOk(n, h', p.src, p.dst, p.msg)
  {
    forall p | p in net ensures MessageOk(n, h', p.src, p.dst, p.msg) {
      if p in c.net {
        MessageExtends(n, h, h', p.src, p.dst, p.msg);
      } else {
        Stamped(i, c.nextId, sends, p);
      }
    }
  }

  lemma {:induction false} NodesKept(n: int, nodes: seq<NodeState>, h: History, h': History, i: int,
                                     nodes': seq<NodeState>)
    requires |nodes| == n == |nodes'| && 0 <= i < n && nodes' == nodes[i := nodes'[i]]
    requires Grows(h, h', i) && NodeOk(n, i, nodes'[i], h')
    requires forall j | 0 <= j < n :: NodeOk(n, j, nodes[j], h)
    ensures forall j | 0 <= j < n :: NodeOk(n, j, nodes'[j], h')
  {
    forall j | 0 <= j < n ensures NodeOk(n, j, nodes'[j], h') {
      if j != i {
        NodeExtends(n, j, nodes[j], h, h', i);
      }
    }
  }

  lemma {:induction false} BaseStepKept(n: int, c: Cluster, h: History, step: Step)
    requires BaseInv(n, c, h) && Enabled(n, c, step) && FreshVote(n, c, step)
    ensures BaseInv(n, Apply(n, c, step), NextHistory(n, c, h, step))
    ensures Grows(h, NextHistory(n, c, h, step), Actor(step))
  {
    var h' := NextHistory(n, c, h, step);
    var o := Effect(n, c, step);
    EffectKept(n, c, h, step);
    NodesKept(n, c.nodes, h, h', Actor(step), Apply(n, c, step).nodes);
    NetKept(n, c, h, h', Actor(step), o.sends, Apply(n, c, step).net);
  }

  // ---------------------------------------------------------------- whole runs

  /** One history for each state of the run, each step adding what it observes. */
  ghost predicate Records(n: int, r: Run, hs: seq<History>) {
    && IsRun(n, r)
    && |hs| == |r.states|
    && hs[0] == EMPTY
    && forall k {:trigger RecordsStep(n, r, hs, k)} | 0 <= k < |r.steps| :: RecordsStep(n, r, hs, k)
  }

  ghost predicate RecordsStep(n: int, r: Run, hs: seq<History>, k: int)
    requires 0 <= k < |r.steps| && |r.states| == |r.steps| + 1 && k + 1 < |hs|
  {
    StepsTo(n, r, k) && hs[k + 1] == NextHistory(n, r.states[k], hs[k], r.steps[k])
  }

  lemma {:induction false} SameRecordsStep(n: int, r: Run, hs: seq<History>, longer: seq<History>, j: nat)
    requires j < |r.steps| && |r.states| == |r.steps| + 1 && j + 1 < |hs| && j + 1 < |longer|
    requires RecordsStep(n, r, hs, j) && longer[j] == hs[j] && longer[j + 1] == hs[j + 1]
    ensures RecordsStep(n, r, longer, j)
  {
  }

  lemma {:induction false} MoreHistory(n: int, r: Run, hs: seq<History>, k: nat) returns (longer: seq<History>)
    requires IsRun(n, r) && k < |r.steps| && |hs| == k + 1
    requires forall j {:trigger RecordsStep(n, r, hs, j)} | 0 <= j < k :: RecordsStep(n, r, hs, j)
    ensures |longer| == k + 2 && longer[0] == hs[0]
    ensures forall j {:trigger RecordsStep(n, r, longer, j)} | 0 <= j <= k :: RecordsStep(n, r, longer, j)
  {
    assert StepsTo(n, r, k);
    longer := hs + [NextHistory(n, r.states[k], hs[k], r.steps[k])];
    assert RecordsStep(n, r, longer, k);
    hide IsRun, StepsTo, NextHistory, RecordsStep;
    forall j | 0 <= j <= k ensures RecordsStep(n, r, longer, j) {
      if j < k {
        SameRecordsStep(n, r, hs, longer, j);
      }
    }
  }

  lemma {:induction false} WriteHistory(n: int, r: Run) returns (hs: seq<History>)
    requires IsRun(n, r)
    ensures Records(n, r, hs)
  {
    hs := [EMPTY];
    var k := 0;
    hide RecordsStep;
    while k < |r.steps|
      invariant 0 <= k <= |r.steps| && |hs| == k + 1 && hs[0] == EMPTY
      invariant forall j {:trigger RecordsStep(n, r, hs, j)} | 0 <= j < k :: RecordsStep(n, r, hs, j)
    {
      hs := MoreHistory(n, r, hs, k);
      k := k + 1;
    }
  }

  lemma {:induction false} RecordedStepKept(n: int, r: Run, hs: seq<History>, k: nat)
    requires Records(n, r, hs) && FreshVotes(n, r) && k < |r.steps| && BaseInv(n, r.states[k], hs[k])
    ensures BaseInv(n, r.states[k + 1], hs[k + 1]) && Extends(hs[k], hs[k + 1])
  {
    assert RecordsStep(n, r, hs, k);
    BaseStepKept(n, r.states[k], hs[k], r.steps[k]);
  }

  lemma {:induction false} BaseHolds(n: int, r: Run, hs: seq<History>, k: nat)
    requires Records(n, r, hs)
    requires IsRun(n, r) && FreshVotes(n, r) && k < |r.states|
    ensures BaseInv(n, r.states[k], hs[k])
  {
    if k > 0 {
      BaseHolds(n, r, hs, k - 1);
      RecordedStepKept(n, r, hs, k - 1);
    }
  }

  lemma {:induction false} ExtendsTrans(a: History, b: History, c: History)
    requires Extends(a, b) && Extends(b, c)
    ensures Extends(a, c)
  {
    forall t | t in a.lead ensures a.lead[t].log <= c.lead[t].log {
      PrefixTrans(a.lead[t].log, b.lead[t].log, c.lead[t].log);
    }
  }

  lemma {:induction false} HistoryExtends(n: int, r: Run, hs: seq<History>, j: nat, k: nat)
    requires Records(n, r, hs)
    requires IsRun(n, r) && FreshVotes(n, r) && j <= k < |r.states|
    ensures Extends(hs[j], hs[k])
  {
    if j < k {
      HistoryExtends(n, r, hs, j, k - 1);
      BaseHolds(n, r, hs, k - 1);
      RecordedStepKept(n, r, hs, k - 1);
      ExtendsTrans(hs[j], hs[k - 1], hs[k]);
    }
  }

  /** The message that a step handles, and the node that handles it, meet the invariant. */
  lemma {:induction false} BaseReady(n: int, c: Cluster, h: History, step: Step)
    requires BaseInv(n, c, h) && Enabled(n, c, step) && Handling(c, step).Some?
    ensures NodeOk(n, Actor(step), Before(c, step), h)
    ensures var p := Handling(c, step).value; MessageOk(n, h, p.src, Actor(step), p.msg)
  {
    assert NodeOk(n, Actor(step), c.nodes[Actor(step)], h);
    if step.Resume? {
      assert c.nodes[Actor(step)].queue[0] in c.nodes[Actor(step)].queue;
    }
  }

  // ---------------------------------------------------------------- theorems

  /** A leader's log is the record of its term, then and at any later time. */
  lemma {:induction false} LeaderRecorded(n: int, r: Run, hs: seq<History>, j: nat, k: nat, i: int, t: int)
    requires Records(n, r, hs)
    requires IsRun(n, r) && FreshVotes(n, r) && j <= k < |r.states| && LeadsAt(r, j, i, t)
    ensures var h := hs[k];
            t in h.lead && h.lead[t].leader == i && r.states[j].nodes[i].log <= h.lead[t].log
  {
    BaseHolds(n, r, hs, j);
    assert NodeOk(n, i, r.states[j].nodes[i], hs[j]);
    HistoryExtends(n, r, hs, j, k);
  }

  /** At most one node is ever leader in a term, at any two moments of the run. */
  lemma {:induction false} ElectionSafety(n: int, r: Run, j: nat, k: nat, a: int, b: int, t: int)
    requires IsRun(n, r) && FreshVotes(n, r)
    requires LeadsAt(r, j, a, t) && LeadsAt(r, k, b, t)
    ensures a == b
  {
    var hs := WriteHistory(n, r);
    var last := if j <= k then k else j;
    LeaderRecorded(n, r, hs, j, last, a, t);
    LeaderRecorded(n, r, hs, k, last, b, t);
  }

  /** While it leads, a leader only appends to its log. */
  lemma {:induction false} LeaderAppendOnly(n: int, r: Run, j: nat, k: nat, i: int, t: int)
    requires IsRun(n, r) && FreshVotes(n, r) && j <= k
    requires LeadsAt(r, j, i, t) && LeadsAt(r, k, i, t)
    ensures r.states[j].nodes[i].log <= r.states[k].nodes[i].log
  {
    var hs := WriteHistory(n, r);
    LeaderRecorded(n, r, hs, j, k, i, t);
    BaseHolds(n, r, hs, k);
    assert NodeOk(n, i, r.states[k].nodes[i], hs[k]);
  }

  lemma {:induction false} LogCoveredLater(n: int, r: Run, hs: seq<History>, j: nat, k: nat, i: int)
    requires Records(n, r, hs)
    requires IsRun(n, r) && FreshVotes(n, r) && j <= k < |r.states| && 0 <= i < |r.states[j].nodes|
    ensures Covered(hs[k], r.states[j].nodes[i].log)
  {
    BaseHolds(n, r, hs, j);
    assert NodeOk(n, i, r.states[j].nodes[i], hs[j]);
    HistoryExtends(n, r, hs, j, k);
    CoveredExtends(hs[j], hs[k], r.states[j].nodes[i].log);
  }

  /** Two logs that agree on the term at an index are equal up to it, whoever's they are and whenever. */
  lemma {:induction false} LogMatching(n: int, r: Run, j: nat, k: nat, a: int, b: int, x: nat)
    requires IsRun(n, r) && FreshVotes(n, r) && j < |r.states| && k < |r.states|
    requires 0 <= a < |r.states[j].nodes| && 0 <= b < |r.states[k].nodes|
    requires x < |r.states[j].nodes[a].log| && x < |r.states[k].nodes[b].log|
    requires r.states[j].nodes[a].log[x].term == r.states[k].nodes[b].log[x].term
    ensures r.states[j].nodes[a].log[..x + 1] == r.states[k].nodes[b].log[..x + 1]
  {
    var hs := WriteHistory(n, r);
    var last := if j <= k then k else j;
    var h := hs[last];
    LogCoveredLater(n, r, hs, j, last, a);
    LogCoveredLater(n, r, hs, k, last, b);
    CoveredAgree(h, r.states[j].nodes[a].log, r.states[k].nodes[b].log, x);
  }
}
