/** What a step sends, to whom and in which order, for any number of nodes and in any run. */
module Broadcasts {
  import opened Types
  import opened NodeSpec
  import opened Clusters
  import opened Sends
  import opened Terms
  import opened NodeFacts

  /** An append that brings node f the whole log from nextIndex on, with the index and term before it. */
  ghost predicate Brings(i: int, s: NodeState, commit: int, f: int, m: Message) {
    && 0 <= f < |s.nextIndex| && m.AppendEntries?
    && var next := s.nextIndex[f];
    && next >= 0
    && m.term == s.term && m.leaderId == i && m.leaderCommit == commit && m.prevLogIndex == next - 1
    && m.prevLogTerm == (if 1 <= next <= |s.log| then s.log[next - 1].term else 0)
    && |m.entries| == (if next <= |s.log| then |s.log| - next else 0)
    && forall x | 0 <= x < |m.entries| :: m.entries[x] == s.log[next + x]
  }

  /** A request for votes that gives the candidate's term and the end of its log. */
  ghost predicate Asks(i: int, s: NodeState, m: Message) {
    && m.RequestVote? && m.term == s.term && m.candidateId == i && m.lastLogIndex == |s.log| - 1
    && m.lastLogTerm == if s.log == [] then -1 else s.log[|s.log| - 1].term
  }

  /** One message to every node but i, in rank order. */
  ghost predicate ToAll(n: int, i: int, sends: seq<Send>) {
    0 <= i < n && |sends| == n - 1 && forall f | 0 <= f < n && f != i :: sends[Place(i, f)].dst == f
  }

  // ---------------------------------------------------------------- the loops over the nodes

  lemma {:induction false} BringsRest(i: int, s: NodeState, f: int)
    requires 0 <= f < |s.nextIndex| && s.nextIndex[f] >= 0
    ensures Brings(i, s, s.commitIndex, f, AppendFor(i, s, f))
  {
  }

  /** A leader's appends to all. */
  ghost predicate Updating(n: int, i: int, s: NodeState, sends: seq<Send>) {
    ToAll(n, i, sends)
    && forall f | 0 <= f < n && f != i :: Brings(i, s, s.commitIndex, f, sends[Place(i, f)].msg)
  }

  /** A candidate's requests to all. */
  ghost predicate Asking(n: int, i: int, s: NodeState, sends: seq<Send>) {
    ToAll(n, i, sends) && forall f | 0 <= f < n && f != i :: Asks(i, s, sends[Place(i, f)].msg)
  }

  lemma {:induction false} UpdatesUpdate(n: int, i: int, s: NodeState)
    requires Shaped(n, i, s) && NextBound(s)
    ensures Updating(n, i, s, Updates(i, s, n))
  {
    UpdatesPlaced(i, s, n);
    forall f | 0 <= f < n && f != i ensures Brings(i, s, s.commitIndex, f, Updates(i, s, n)[Place(i, f)].msg) {
      BringsRest(i, s, f);
    }
    hide AppendFor, Brings, Updates;
  }

  lemma {:induction false} RequestsAsk(n: int, i: int, s: NodeState)
    requires Shaped(n, i, s)
    ensures Asking(n, i, s, VoteRequests(i, s, n))
  {
    RequestsPlaced(i, s, n);
    hide VoteRequests;
  }

  // ---------------------------------------------------------------- what starts a cycle

  lemma {:induction false} LeaderEnters(n: int, i: int, s: NodeState)
    requires Shaped(n, i, s) && DefinedEnter(s) && s.role == Leader
    ensures var o := Enter(n, i, s); o.node == FreshCycle(n, s) && Updating(n, i, o.node, o.sends)
  {
    UpdatesUpdate(n, i, FreshCycle(n, s));
  }

  /** A candidate that starts a cycle: the next term, its own vote and no other. */
  ghost predicate Stood(n: int, i: int, s: NodeState, s': NodeState) {
    && s'.role == Candidate && s'.term == s.term + 1 && s'.votedFor == Some(i) && !s'.crashed
    && s'.voteCount == 1 && |s'.granted| == n && (forall v | 0 <= v < n :: !s'.granted[v])
    && s'.log == s.log && s'.commitIndex == s.commitIndex && s'.saved == s.saved && s'.replied == s.replied
  }

  lemma {:induction false} CandidateEnters(n: int, i: int, s: NodeState)
    requires Shaped(n, i, s) && s.role == Candidate && !s.crashed
    ensures var o := Enter(n, i, s); Stood(n, i, s, o.node) && Asking(n, i, o.node, o.sends)
  {
    RequestsAsk(n, i, Campaign(i, FreshCycle(n, s)));
    hide VoteRequests, Asking;
  }

  /** The step makes its node a leader, or is a leader's timeout or recovery. */
  predicate LeadsAnew(s: NodeState, step: Step, s': NodeState) {
    s'.role == Leader && (s.role != Leader || step.Timeout? || step.Recovery?)
  }

  /** The timeout of a follower or a candidate, or the recovery of a candidate. */
  predicate StandsAnew(s: NodeState, step: Step) {
    (step.Timeout? && s.role != Leader) || (step.Recovery? && s.role == Candidate)
  }

  lemma {:induction false} WinnerUpdates(n: int, i: int, s: NodeState, p: Packet)
    requires Shaped(n, i, s) && Defined(n, i, s, p) && s.role != Leader
    requires Receive(n, i, s, p).node.role == Leader
    ensures var o := Receive(n, i, s, p);
            && Updating(n, i, o.node, o.sends) && o.node.log == s.log && o.node.term == s.term
            && |o.node.nextIndex| == n == |o.node.matchIndex|
            && (forall f | 0 <= f < n :: o.node.nextIndex[f] == |s.log| && o.node.matchIndex[f] == -1)
  {
    ReceiveElects(n, i, s, p);
    var h := Handle(n, i, s, p);
    assert h.sends == [] && h.next == Some(Leader);
    var l := Leave(n, h.node, h.next);
    LeaderEnters(n, i, l);
    hide Updating;
  }

  lemma {:induction false} EffectLeads(n: int, c: Cluster, step: Step)
    requires Enabled(n, c, step) && LeadsAnew(Before(c, step), step, Effect(n, c, step).node)
    ensures var (i, s, o) := (Actor(step), Before(c, step), Effect(n, c, step));
            && Updating(n, i, o.node, o.sends) && o.node.log == s.log && o.node.term == s.term
            && |o.node.nextIndex| == n == |o.node.matchIndex|
            && (s.role != Leader ==>
                  forall f | 0 <= f < n :: o.node.nextIndex[f] == |s.log| && o.node.matchIndex[f] == -1)
            && (s.role == Leader ==>
                  o.node.nextIndex == s.nextIndex && o.node.matchIndex == s.matchIndex)
  {
    var (i, s) := (Actor(step), Before(c, step));
    if Handling(c, step).Some? {
      WinnerUpdates(n, i, s, Handling(c, step).value);
      hide Receive;
    } else if s.role == Leader {
      LeaderEnters(n, i, s.(crashed := false));
    }
    hide Updating;
  }

  lemma {:induction false} EffectStands(n: int, c: Cluster, step: Step)
    requires Enabled(n, c, step) && StandsAnew(Before(c, step), step)
    ensures var (i, s, o) := (Actor(step), Before(c, step), Effect(n, c, step));
            Stood(n, i, s, o.node) && Asking(n, i, o.node, o.sends)
  {
    var (i, s) := (Actor(step), Before(c, step));
    CandidateEnters(n, i, s.(role := Candidate, crashed := false));
  }

  // ---------------------------------------------------------------- runs

  /** What node i sends in step k. */
  ghost function SendsAt(n: int, r: Run, k: nat): seq<Send>
    requires IsRun(n, r) && k < |r.steps|
  {
    assert StepsTo(n, r, k);
    Effect(n, r.states[k], r.steps[k]).sends
  }

  /** Each of the messages sent in step k is on its way after it. */
  lemma {:induction false} SentInNet(n: int, r: Run, k: nat, x: nat)
    requires IsRun(n, r) && k < |r.steps| && x < |SendsAt(n, r, k)|
    ensures var snd := SendsAt(n, r, k)[x];
            Packet(r.states[k].nextId + x, Actor(r.steps[k]), snd.dst, snd.msg) in r.states[k + 1].net
  {
    assert StepsTo(n, r, k);
    var (c, step) := (r.states[k], r.steps[k]);
    var snd := Effect(n, c, step).sends[x];
    assert Packet(c.nextId + x, Actor(step), snd.dst, snd.msg)
           in Stamp(Actor(step), c.nextId, Effect(n, c, step).sends);
    hide Effect;
  }

  /** Node i takes step k. */
  ghost predicate ActsAt(n: int, r: Run, k: nat, i: int) {
    k < |r.steps| && Actor(r.steps[k]) == i && 0 <= i < n && NodeIn(r, k, i) && NodeIn(r, k + 1, i)
  }

  /**
    In any run, a node that becomes leader, or a leader that times out or recovers, sends every other node one append
    with its log from that node's nextIndex on, in rank order, and all of them are then on their way.
   */
  lemma {:induction false} LeaderUpdatesAll(n: int, r: Run, k: nat, i: int, f: int)
    requires IsRun(n, r) && ActsAt(n, r, k, i) && 0 <= f < n && f != i
    requires LeadsAnew(r.states[k].nodes[i], r.steps[k], r.states[k + 1].nodes[i])
    ensures var (s, s', sends, x) := (r.states[k].nodes[i], r.states[k + 1].nodes[i], SendsAt(n, r, k), Place(i, f));
            && |sends| == n - 1 && sends[x].dst == f && Brings(i, s', s'.commitIndex, f, sends[x].msg)
            && Packet(r.states[k].nextId + x, i, f, sends[x].msg) in r.states[k + 1].net
            && |s'.nextIndex| == n == |s'.matchIndex|
            && (s.role != Leader ==> s'.nextIndex[f] == |s'.log| && s'.matchIndex[f] == -1)
            && (s.role == Leader ==> s'.nextIndex == s.nextIndex && s'.matchIndex == s.matchIndex)
  {
    assert StepsTo(n, r, k);
    EffectLeads(n, r.states[k], r.steps[k]);
    SentInNet(n, r, k, Place(i, f));
    hide Effect, Brings, Enabled;
  }

  /**
    In any run, a follower or candidate that times out, or a candidate that recovers, stands in the next term, and
    every other node is sent one request for its vote, in rank order.
   */
  lemma {:induction false} CandidateAsksAll(n: int, r: Run, k: nat, i: int, f: int)
    requires IsRun(n, r) && ActsAt(n, r, k, i) && 0 <= f < n && f != i
    requires StandsAnew(r.states[k].nodes[i], r.steps[k])
    ensures var (s, s', sends, x) := (r.states[k].nodes[i], r.states[k + 1].nodes[i], SendsAt(n, r, k), Place(i, f));
            && Stood(n, i, s, s')
            && |sends| == n - 1 && sends[x].dst == f && Asks(i, s', sends[x].msg)
            && Packet(r.states[k].nextId + x, i, f, sends[x].msg) in r.states[k + 1].net
  {
    assert StepsTo(n, r, k);
    EffectStands(n, r.states[k], r.steps[k]);
    SentInNet(n, r, k, Place(i, f));
    hide Effect, Asks, Stood, Enabled;
  }
}
