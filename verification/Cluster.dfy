/**
  The cluster: n nodes, the packets in transit, and the steps they can take.
  A step fixes every choice (which packet, which timer, which client command), so its effect is a function.
 */
module Clusters {
  import opened Types
  import opened NodeSpec

  datatype Cluster = Cluster(nodes: seq<NodeState>, net: set<Packet>, nextId: int)

  datatype Step =
    | Deliver(p: Packet)
    | Resume(i: int)
    | Timeout(i: int)
    | Crash(i: int)
    | Recovery(i: int)
    | ClientRequest(i: int, cmd: string, clientId: int)

  function Boot(n: nat): Cluster {
    Cluster(seq(n, _ => InitialNode(n)), {}, 0)
  }

  function Actor(step: Step): int {
    match step
    case Deliver(p) => p.dst
    case Resume(i) => i
    case Timeout(i) => i
    case Crash(i) => i
    case Recovery(i) => i
    case ClientRequest(i, _, _) => i
  }

  /** The node that acts, with the message it resumes taken off its queue. */
  function Before(c: Cluster, step: Step): NodeState
    requires 0 <= Actor(step) < |c.nodes|
  {
    var s := c.nodes[Actor(step)];
    if step.Resume? && s.queue != [] then s.(queue := s.queue[1..]) else s
  }

  /** The message that the acting node handles in this step, if any. */
  function Handling(c: Cluster, step: Step): Option<Packet>
    requires 0 <= Actor(step) < |c.nodes|
  {
    var s := c.nodes[Actor(step)];
    match step
    case Deliver(p) => if s.crashed then None else Some(p)
    case Resume(i) => if s.queue == [] then None else Some(s.queue[0])
    case _ => None
  }

  predicate Enabled(n: int, c: Cluster, step: Step) {
    && |c.nodes| == n
    && 0 <= Actor(step) < n
    && var s := Before(c, step);
    && Shaped(n, Actor(step), s)
    && match step
       case Deliver(p) => p in c.net && (s.crashed || (s.queue == [] && Defined(n, p.dst, s, p)))
       case Resume(i) => !s.crashed && c.nodes[i].queue != [] && Defined(n, i, s, c.nodes[i].queue[0])
       case Timeout(i) => !s.crashed && s.queue == [] && DefinedEnter(s)
       case Crash(i) => !s.crashed && s.queue == []
       case Recovery(i) => s.crashed && DefinedEnter(s)
       case ClientRequest(i, _, _) => !s.crashed && s.queue == []
  }

  function Effect(n: int, c: Cluster, step: Step): Outcome
    requires Enabled(n, c, step)
  {
    var s := Before(c, step);
    match step
    case Deliver(p) => if s.crashed then Outcome(s, []) else Receive(n, p.dst, s, p)
    case Resume(i) => Receive(n, i, s, c.nodes[i].queue[0])
    case Timeout(i) => Expire(n, i, s)
    case Crash(i) => Outcome(s.(crashed := true), [])
    case Recovery(i) => Recover(n, i, s)
    case ClientRequest(i, cmd, clientId) => Outcome(ClientAppend(s, cmd, clientId), [])
  }

  /** The packets made of a node's sends, numbered from id on. */
  function Stamp(src: int, id: int, sends: seq<Send>): set<Packet> {
    set k | 0 <= k < |sends| :: Packet(id + k, src, sends[k].dst, sends[k].msg)
  }

  lemma {:induction false} Stamped(src: int, id: int, sends: seq<Send>, p: Packet)
    requires p in Stamp(src, id, sends)
    ensures p.src == src && id <= p.id < id + |sends| && Send(p.dst, p.msg) in sends
  {
    var k :| 0 <= k < |sends| && p == Packet(id + k, src, sends[k].dst, sends[k].msg);
    assert sends[k] == Send(p.dst, p.msg);
  }

  lemma {:induction false} StampedOnce(src: int, id: int, sends: seq<Send>, p: Packet, q: Packet)
    requires p in Stamp(src, id, sends) && q in Stamp(src, id, sends) && p.id == q.id
    ensures p == q
  {
    var k :| 0 <= k < |sends| && p == Packet(id + k, src, sends[k].dst, sends[k].msg);
    var l :| 0 <= l < |sends| && q == Packet(id + l, src, sends[l].dst, sends[l].msg);
    assert k == l;
  }

  function Taken(c: Cluster, step: Step): set<Packet> {
    match step
    case Deliver(p) => c.net - {p}
    case _ => c.net
  }

  function Apply(n: int, c: Cluster, step: Step): Cluster
    requires Enabled(n, c, step)
  {
    var o := Effect(n, c, step);
    Cluster(c.nodes[Actor(step) := o.node],
            Taken(c, step) + Stamp(Actor(step), c.nextId, o.sends),
            c.nextId + |o.sends|)
  }

  // ---------------------------------------------------------------- hypotheses
  // What the source leaves to the network, to timing or to luck, one predicate each.

  /** A vote that a candidate counts was granted in its present term. */
  predicate FreshVote(n: int, c: Cluster, step: Step)
    requires Enabled(n, c, step)
  {
    var (s, h) := (Before(c, step), Handling(c, step));
    h.Some? && s.role == Candidate && CountsVote(s, h.value) ==> h.value.msg.term >= s.term
  }

  /** A successful append response that a leader handles was sent in its present term. */
  predicate FreshAck(n: int, c: Cluster, step: Step)
    requires Enabled(n, c, step)
  {
    var (s, h) := (Before(c, step), Handling(c, step));
    h.Some? && s.role == Leader && h.value.msg.AppendEntriesResponse? && h.value.msg.success
    ==> h.value.msg.term >= s.term
  }

  /** The packets of one sender to one receiver arrive in the order of sending. */
  predicate Fifo(n: int, c: Cluster, step: Step) {
    step.Deliver? ==>
      forall q | q in c.net && q.src == step.p.src && q.dst == step.p.dst :: step.p.id <= q.id
  }

  /** A commit loop that advances stops on an entry of the leader's own term. */
  predicate OwnTermCommit(n: int, c: Cluster, step: Step)
    requires Enabled(n, c, step)
  {
    var (s, o) := (Before(c, step), Effect(n, c, step).node);
    s.role == Leader && o.role == Leader && s.commitIndex < o.commitIndex < |o.log|
    ==> o.log[o.commitIndex].term == o.term
  }

  // ---------------------------------------------------------------- runs

  datatype Run = Run(states: seq<Cluster>, steps: seq<Step>)

  /** Step k of the run is one the cluster can take, and leads to the next state. */
  ghost predicate StepsTo(n: int, r: Run, k: int)
    requires 0 <= k < |r.steps| && |r.states| == |r.steps| + 1
  {
    Enabled(n, r.states[k], r.steps[k]) && r.states[k + 1] == Apply(n, r.states[k], r.steps[k])
  }

  /** A finite execution of the cluster from its start. */
  ghost predicate IsRun(n: int, r: Run) {
    && n >= 2
    && |r.states| == |r.steps| + 1
    && r.states[0] == Boot(n)
    && forall k {:trigger StepsTo(n, r, k)} | 0 <= k < |r.steps| :: StepsTo(n, r, k)
  }

  ghost predicate FreshVotes(n: int, r: Run)
    requires IsRun(n, r)
  {
    forall k {:trigger FreshVote(n, r.states[k], r.steps[k])} | 0 <= k < |r.steps| ::
      StepsTo(n, r, k) ==> FreshVote(n, r.states[k], r.steps[k])
  }

  ghost predicate FreshAcks(n: int, r: Run)
    requires IsRun(n, r)
  {
    forall k {:trigger FreshAck(n, r.states[k], r.steps[k])} | 0 <= k < |r.steps| ::
      StepsTo(n, r, k) ==> FreshAck(n, r.states[k], r.steps[k])
  }

  ghost predicate FifoRun(n: int, r: Run)
    requires IsRun(n, r)
  {
    forall k {:trigger Fifo(n, r.states[k], r.steps[k])} | 0 <= k < |r.steps| ::
      Fifo(n, r.states[k], r.steps[k])
  }

  ghost predicate OwnTermCommits(n: int, r: Run)
    requires IsRun(n, r)
  {
    forall k {:trigger OwnTermCommit(n, r.states[k], r.steps[k])} | 0 <= k < |r.steps| ::
      StepsTo(n, r, k) ==> OwnTermCommit(n, r.states[k], r.steps[k])
  }

  ghost function NodeAt(r: Run, k: nat, i: int): NodeState
    requires k < |r.states| && 0 <= i < |r.states[k].nodes|
  {
    r.states[k].nodes[i]
  }

  /** Node i leads term t in state k. */
  ghost predicate LeadsAt(r: Run, k: nat, i: int, t: int) {
    && k < |r.states| && 0 <= i < |r.states[k].nodes|
    && r.states[k].nodes[i].role == Leader && r.states[k].nodes[i].term == t
  }
}
