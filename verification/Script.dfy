/**
  Runs of three nodes written down step by step. A script says of every step what the acting node does, in a lemma
  about any node in that position, and then that the run so far can be continued by the step.
 */
module Scripts {
  import opened Types
  import opened NodeSpec
  import opened Clusters
  import opened NodeFacts

  const NOBODY: seq<bool> := [false, false, false]

  /** A node that has committed nothing; a candidate has its own vote only. */
  function Bare(role: Role, term: int, votedFor: Option<int>, log: seq<Entry>, matchIndex: seq<int>,
                nextIndex: seq<int>): NodeState {
    NodeState(role, term, votedFor, log, -1, matchIndex, nextIndex, false, [], NOBODY,
              if role == Candidate then 1 else 0, [], [])
  }

  lemma {:induction false} Constants()
    ensures seq(3, _ => false) == NOBODY
    ensures seq(3, _ => -1) == [-1, -1, -1]
    ensures Boot(3) == Cluster([InitialNode(3), InitialNode(3), InitialNode(3)], {}, 0)
    ensures InitialNode(3) == Bare(Follower, 0, None, [], [-1, -1, -1], [0, 0, 0])
  {
  }

  // ---------------------------------------------------------------- what a node does with a message

  /** Node i, up and with nothing put back, handles p: it becomes s' and sends these messages. */
  ghost predicate Takes(i: int, s: NodeState, p: Packet, s': NodeState, sends: seq<Send>) {
    && Shaped(3, i, s) && !s.crashed && s.queue == []
    && Defined(3, i, s, p) && Receive(3, i, s, p) == Outcome(s', sends)
  }

  /** Node i, up and with nothing put back, runs out of time. */
  ghost predicate Expires(i: int, s: NodeState, s': NodeState, sends: seq<Send>) {
    && Shaped(3, i, s) && !s.crashed && s.queue == []
    && DefinedEnter(s) && Expire(3, i, s) == Outcome(s', sends)
  }

  function ToSend(p: Packet): Send {
    Send(p.dst, p.msg)
  }

  /** The lower of the two other nodes, and the higher. */
  function Low(i: int): int { if i == 0 then 1 else 0 }
  function High(i: int): int { if i == 2 then 1 else 2 }

  /** A node between messages, up and with nothing put back. */
  predicate Idle(i: int, s: NodeState) {
    && 0 <= i < 3 == |s.matchIndex| == |s.nextIndex| && !s.crashed && s.queue == [] && s.granted == NOBODY
    && s.voteCount == if s.role == Candidate then 1 else 0
  }

  /** The list s' is s and then the entries of the log from index lo to below hi. */
  predicate Grown(s: seq<Entry>, log: seq<Entry>, lo: int, hi: int, s': seq<Entry>) {
    && 0 <= lo <= hi <= |log| && |s'| == |s| + hi - lo
    && (forall k | 0 <= k < |s| :: s'[k] == s[k])
    && (forall k | lo <= k < hi :: s'[|s| + k - lo] == log[k])
  }

  lemma {:induction false} GrownIs(s: seq<Entry>, log: seq<Entry>, lo: int, hi: int, s': seq<Entry>)
    requires Grown(s, log, lo, hi, s')
    ensures s' == s + log[lo..hi]
  {
    forall k | 0 <= k < |s'| ensures s'[k] == (s + log[lo..hi])[k] {
      if k >= |s| {
        assert s'[|s| + (k - |s| + lo) - lo] == log[k - |s| + lo];
      }
    }
  }

  /** The same of the clients that are answered. */
  predicate Answered(s: seq<int>, log: seq<Entry>, lo: int, hi: int, s': seq<int>) {
    && 0 <= lo <= hi <= |log| && |s'| == |s| + hi - lo
    && (forall k | 0 <= k < |s| :: s'[k] == s[k])
    && (forall k | lo <= k < hi :: s'[|s| + k - lo] == log[k].clientId)
  }

  lemma {:induction false} AnsweredIs(s: seq<int>, log: seq<Entry>, lo: int, hi: int, s': seq<int>)
    requires Answered(s, log, lo, hi, s')
    ensures s' == s + Clients(log[lo..hi])
  {
    forall k | 0 <= k < |s'| ensures s'[k] == (s + Clients(log[lo..hi]))[k] {
      if k >= |s| {
        assert s'[|s| + (k - |s| + lo) - lo] == log[k - |s| + lo].clientId;
      }
    }
  }

  /** The packet holds the append that node i sends from state s. */
  predicate Carries(i: int, s: NodeState, q: Packet) {
    && 0 <= q.dst < |s.nextIndex| && q.msg.AppendEntries?
    && var next := s.nextIndex[q.dst];
    && 0 <= next <= |s.log|
    && q.msg == AppendEntries(s.term, i, next - 1, if next > 0 then s.log[next - 1].term else 0, s.commitIndex,
                              q.msg.entries)
    && Grown([], s.log, next, |s.log|, q.msg.entries)
  }

  lemma {:induction false} CarriesAppend(i: int, s: NodeState, q: Packet)
    requires Carries(i, s, q)
    ensures q.msg == AppendFor(i, s, q.dst)
  {
    GrownIs([], s.log, s.nextIndex[q.dst], |s.log|, q.msg.entries);
    assert q.msg.entries == s.log[s.nextIndex[q.dst]..];
  }

  lemma {:induction false} AllCarry(i: int, s: NodeState, q1: Packet, q2: Packet)
    requires 0 <= i < 3 == |s.nextIndex| && forall f | 0 <= f < 3 :: s.nextIndex[f] >= 0
    requires Carries(i, s, q1) && q1.dst == Low(i) && Carries(i, s, q2) && q2.dst == High(i)
    ensures Updates(i, s, 3) == [ToSend(q1), ToSend(q2)]
  {
    CarriesAppend(i, s, q1);
    CarriesAppend(i, s, q2);
    hide AppendFor, Carries;
    assert Updates(i, s, 1) == if i == 0 then [] else [ToSend(q1)];
    assert Updates(i, s, 2) == if i == 2 then [ToSend(q1), ToSend(q2)] else [ToSend(q1)];
  }

  lemma {:induction false} AllAsk(i: int, s: NodeState, m: Message)
    requires 0 <= i < 3 && m == VoteRequest(i, s)
    ensures VoteRequests(i, s, 3) == [Send(Low(i), m), Send(High(i), m)]
  {
    assert VoteRequests(i, s, 1) == if i == 0 then [] else [Send(0, m)];
    assert VoteRequests(i, s, 2) == VoteRequests(i, s, 1) + if i == 1 then [] else [Send(1, m)];
  }

  /** A follower or a candidate stands for election. */
  lemma {:induction false} Stands(i: int, s: NodeState, s': NodeState, q1: Packet, q2: Packet)
    requires Idle(i, s) && s.role != Leader
    requires s' == s.(role := Candidate, term := s.term + 1, votedFor := Some(i), voteCount := 1)
    requires q1.dst == Low(i) && q2.dst == High(i)
    requires q1.msg == q2.msg == RequestVote(s'.term, i, |s.log| - 1, LastTerm(s.log))
    ensures Expires(i, s, s', [ToSend(q1), ToSend(q2)])
  {
    Constants();
    AllAsk(i, s', q1.msg);
    hide VoteRequests;
  }

  /** A leader sends its appends. */
  lemma {:induction false} Beats(i: int, s: NodeState, q1: Packet, q2: Packet)
    requires Idle(i, s) && s.role == Leader && forall f | 0 <= f < 3 :: s.nextIndex[f] >= 0
    requires Carries(i, s, q1) && q1.dst == Low(i) && Carries(i, s, q2) && q2.dst == High(i)
    ensures Expires(i, s, s, [ToSend(q1), ToSend(q2)])
  {
    Constants();
    AllCarry(i, s, q1, q2);
    hide Updates, Carries;
  }

  /** A follower answers a request for its vote. */
  lemma {:induction false} Votes(i: int, s: NodeState, p: Packet, s': NodeState, q: Packet)
    requires Idle(i, s) && s.role == Follower && p.msg.RequestVote? && 0 <= p.src < 3
    requires var a := AdoptTerm(s, p.msg.term);
             s' == if p.msg.term == a.term && a.votedFor.None? && Grants(a.log, p.msg.lastLogIndex, p.msg.lastLogTerm)
                   then a.(votedFor := Some(p.src)) else a
    requires q.dst == p.src
    requires q.msg == RequestVoteResponse(s'.term, p.msg.term == s'.term && s'.votedFor == Some(p.src))
    ensures Takes(i, s, p, s', [ToSend(q)])
  {
    Constants();
  }

  /** A follower rejects an append. */
  lemma {:induction false} Refuses(i: int, s: NodeState, p: Packet, s': NodeState, q: Packet)
    requires Idle(i, s) && s.role == Follower && p.msg.AppendEntries? && 0 <= p.src < 3 && p.msg.prevLogIndex >= -1
    requires p.msg.term < s.term || !Consistent(s.log, p.msg)
    requires s' == AdoptTerm(s, p.msg.term)
    requires q.dst == p.src && q.msg == AppendEntriesResponse(s'.term, false, |s.log|)
    ensures Takes(i, s, p, s', [ToSend(q)])
  {
    Constants();
  }

  /** The follower can accept the append and is then in s'. */
  predicate Stored(s: NodeState, m: Message, s': NodeState) {
    && m.AppendEntries? && m.prevLogIndex >= -1 && m.term >= s.term && Consistent(s.log, m)
    && -1 <= s.commitIndex && m.leaderCommit < Total(m) == |s'.log|
    && (forall k | 0 <= k < |m.entries| :: m.entries[k].index == m.prevLogIndex + 1 + k)
    && s' == AdoptTerm(s, m.term).(log := s'.log, commitIndex := m.leaderCommit, saved := s'.saved)
    && (forall k | 0 <= k < |s'.log| ::
          s'.log[k] == if k < m.prevLogIndex + 1 then s.log[k] else m.entries[k - (m.prevLogIndex + 1)])
    && if m.leaderCommit > s.commitIndex
       then Grown(s.saved, s'.log, s.commitIndex + 1, m.leaderCommit + 1, s'.saved) else s'.saved == s.saved
  }

  lemma {:induction false} StoredLog(log: seq<Entry>, k: nat, es: seq<Entry>, log': seq<Entry>)
    requires k <= |log| && |log'| == k + |es|
    requires forall x | 0 <= x < |log'| :: log'[x] == if x < k then log[x] else es[x - k]
    ensures log' == log[..k] + es
  {
  }

  lemma {:induction false} AcceptedIs(a: NodeState, m: Message, s': NodeState)
    requires Accepts(a, m) && DefinedAppend(a, m)
    requires s' == a.(log := s'.log, commitIndex := m.leaderCommit, saved := s'.saved)
    requires s'.log == a.log[..m.prevLogIndex + 1] + m.entries
    requires s'.saved == if m.leaderCommit > a.commitIndex
                         then a.saved + s'.log[a.commitIndex + 1..m.leaderCommit + 1] else a.saved
    ensures AcceptAppend(a, m) == s'
  {
    hide DefinedAppend, Accepts;
  }

  lemma {:induction false} StoredIs(s: NodeState, m: Message, s': NodeState)
    requires Stored(s, m, s')
    ensures Accepts(s, m) && DefinedAppend(s, m) && AcceptAppend(AdoptTerm(s, m.term), m) == s'
  {
    var a := AdoptTerm(s, m.term);
    StoredLog(s.log, m.prevLogIndex + 1, m.entries, s'.log);
    if m.leaderCommit > s.commitIndex {
      GrownIs(s.saved, s'.log, s.commitIndex + 1, m.leaderCommit + 1, s'.saved);
    }
    hide Grown;
    AcceptedIs(a, m, s');
    hide AcceptAppend;
  }

  /** A follower accepts an append without entries, which it does not answer. */
  lemma {:induction false} Follows(i: int, s: NodeState, p: Packet, s': NodeState)
    requires Idle(i, s) && s.role == Follower && 0 <= p.src < 3 && Stored(s, p.msg, s') && p.msg.entries == []
    ensures Takes(i, s, p, s', [])
  {
    Constants();
    StoredIs(s, p.msg, s');
    hide Stored, AcceptAppend;
  }

  /** A follower accepts entries. */
  lemma {:induction false} Stores(i: int, s: NodeState, p: Packet, s': NodeState, q: Packet)
    requires Idle(i, s) && s.role == Follower && 0 <= p.src < 3 && Stored(s, p.msg, s') && p.msg.entries != []
    requires q.dst == p.src && q.msg == AppendEntriesResponse(s'.term, true, |s'.log|)
    ensures Takes(i, s, p, s', [ToSend(q)])
  {
    Constants();
    StoredIs(s, p.msg, s');
    hide Stored, AcceptAppend;
  }

  /** A follower passes over a response, whose term it may adopt. */
  lemma {:induction false} Passes(i: int, s: NodeState, p: Packet, s': NodeState)
    requires Idle(i, s) && s.role == Follower && 0 <= p.src < 3
    requires !p.msg.RequestVote? && !p.msg.AppendEntries?
    requires s' == AdoptTerm(s, p.msg.term)
    ensures Takes(i, s, p, s', [])
  {
  }

  /** A candidate or a leader meets a higher term and puts the message back. */
  lemma {:induction false} StepsAside(i: int, s: NodeState, p: Packet, s': NodeState)
    requires Idle(i, s) && s.role != Follower && 0 <= p.src < 3 && p.msg.term > s.term
    requires s' == s.(role := Follower, term := p.msg.term, votedFor := None, voteCount := 0, queue := s'.queue)
    requires s'.queue == [p]
    ensures Takes(i, s, p, s', [])
  {
    Constants();
  }

  /** A candidate passes over a message that is neither a vote for it nor an append of its term. */
  lemma {:induction false} Waits(i: int, s: NodeState, p: Packet)
    requires Idle(i, s) && s.role == Candidate && 0 <= p.src < 3 && p.msg.term <= s.term
    requires !(p.msg.RequestVoteResponse? && p.msg.voteGranted) && !(p.msg.AppendEntries? && p.msg.term == s.term)
    ensures Takes(i, s, p, s, [])
  {
  }

  /** The second vote of a candidate among three nodes makes it leader. */
  lemma {:induction false} Wins(i: int, s: NodeState, p: Packet, s': NodeState, q1: Packet, q2: Packet)
    requires Idle(i, s) && s.role == Candidate && 0 <= p.src < 3
    requires p.msg.RequestVoteResponse? && p.msg.voteGranted && p.msg.term <= s.term
    requires s' == s.(role := Leader, voteCount := 0, matchIndex := s'.matchIndex, nextIndex := s'.nextIndex)
    requires s'.matchIndex == [-1, -1, -1] && s'.nextIndex == [|s.log|, |s.log|, |s.log|]
    requires Carries(i, s', q1) && q1.dst == Low(i) && Carries(i, s', q2) && q2.dst == High(i)
    ensures Takes(i, s, p, s', [ToSend(q1), ToSend(q2)])
  {
    Constants();
    AllCarry(i, s', q1, q2);
    hide Updates, Carries;
    var h := Handle(3, i, s, p);
    assert h == Handled(s.(granted := NOBODY[p.src := true], voteCount := 2), [], true, Some(Leader));
    var l := Leave(3, h.node, h.next);
    assert seq(3, _ => |h.node.log|) == [|s.log|, |s.log|, |s.log|];
    assert FreshCycle(3, l) == s';
  }

  /** Where the commit loop goes when only node 1 is known to hold anything after c. */
  lemma {:induction false} OneHolds(i: int, matchIndex: seq<int>, c: int)
    requires 0 <= i < 3 && i != 1 && |matchIndex| == 3 && matchIndex[0] <= c && matchIndex[2] <= c
    ensures CommitTarget(3, i, matchIndex, c) == if matchIndex[1] > c then matchIndex[1] else c
  {
    var target := CommitTarget(3, i, matchIndex, c);
    forall k | k > c ensures |Matched(3, i, matchIndex, k)| == if k <= matchIndex[1] then 2 else 1 {
      assert Matched(3, i, matchIndex, k) == if k <= matchIndex[1] then {i, 1} else {i};
    }
    CommitIsOrderStatistic(3, i, matchIndex, c, target);
    CommitIsOrderStatistic(3, i, matchIndex, c, target + 1);
    CommitIsOrderStatistic(3, i, matchIndex, c, matchIndex[1]);
  }

  /** A leader that knows of nothing after commitIndex at the other nodes than node 1. */
  predicate Alone(i: int, s: NodeState) {
    && Idle(i, s) && i != 1 && s.role == Leader
    && -1 <= s.commitIndex < |s.log| && s.matchIndex[0] <= s.commitIndex && s.matchIndex[2] <= s.commitIndex
  }

  /** A leader rejected by node 1 steps back and sends again. */
  lemma {:induction false} StepsBack(i: int, s: NodeState, p: Packet, s': NodeState, q: Packet)
    requires Alone(i, s) && s.matchIndex[1] <= s.commitIndex && p.src == 1 && s.nextIndex[1] >= 1
    requires p.msg.AppendEntriesResponse? && !p.msg.success && p.msg.term <= s.term
    requires s' == s.(nextIndex := s'.nextIndex) && s'.nextIndex == s.nextIndex[1 := s.nextIndex[1] - 1]
    requires q.dst == 1 && Carries(i, s', q)
    ensures Takes(i, s, p, s', [ToSend(q)])
  {
    OneHolds(i, s.matchIndex, s.commitIndex);
    CarriesAppend(i, s', q);
    assert HandleAck(i, s, p) == Outcome(s', [ToSend(q)]);
    hide HandleAck, Carries;
  }

  /** The commit loop takes node 1's matchIndex, and saves and answers what it passes. */
  lemma {:induction false} LoopReaches(i: int, d: NodeState, s': NodeState)
    requires Shaped(3, i, d) && i != 1 && d.matchIndex[0] <= d.commitIndex && d.matchIndex[2] <= d.commitIndex
    requires -1 <= d.commitIndex <= d.matchIndex[1] < |d.log|
    requires s' == d.(commitIndex := d.matchIndex[1], saved := s'.saved, replied := s'.replied)
    requires s'.saved == d.saved + d.log[d.commitIndex + 1..s'.commitIndex + 1]
    requires s'.replied == d.replied + Clients(d.log[d.commitIndex + 1..s'.commitIndex + 1])
    ensures DefinedCommit(3, i, d) && CommitLoop(3, i, d) == s'
  {
    OneHolds(i, d.matchIndex, d.commitIndex);
    if d.commitIndex == d.matchIndex[1] {
      assert s'.saved == d.saved && s'.replied == d.replied;
    }
  }

  lemma {:induction false} AckTaken(i: int, s: NodeState, p: Packet, d: NodeState)
    requires 0 <= p.src < 3 == |s.matchIndex| == |s.nextIndex| && p.msg.AppendEntriesResponse? && p.msg.success
    requires d == s.(matchIndex := s.matchIndex[p.src := p.msg.newIndex - 1],
                     nextIndex := s.nextIndex[p.src := p.msg.newIndex])
    ensures HandleAck(i, s, p) == Outcome(d, [])
  {
  }

  /** A leader hears from node 1 that it holds its log up to the index the response gives. */
  lemma {:induction false} Hears(i: int, s: NodeState, p: Packet, s': NodeState)
    requires Alone(i, s) && p.src == 1
    requires p.msg.AppendEntriesResponse? && p.msg.success && p.msg.term <= s.term
    requires s.commitIndex < p.msg.newIndex <= |s.log| && s'.commitIndex == p.msg.newIndex - 1
    requires s' == s.(matchIndex := s'.matchIndex, nextIndex := s'.nextIndex, commitIndex := s'.commitIndex,
                      saved := s'.saved, replied := s'.replied)
    requires s'.matchIndex == s.matchIndex[1 := p.msg.newIndex - 1]
    requires s'.nextIndex == s.nextIndex[1 := p.msg.newIndex]
    requires Grown(s.saved, s.log, s.commitIndex + 1, s'.commitIndex + 1, s'.saved)
    requires Answered(s.replied, s.log, s.commitIndex + 1, s'.commitIndex + 1, s'.replied)
    ensures Takes(i, s, p, s', [])
  {
    var d := s.(matchIndex := s'.matchIndex, nextIndex := s'.nextIndex);
    GrownIs(s.saved, s.log, s.commitIndex + 1, s'.commitIndex + 1, s'.saved);
    AnsweredIs(s.replied, s.log, s.commitIndex + 1, s'.commitIndex + 1, s'.replied);
    hide Grown, Answered;
    LoopReaches(i, d, s');
    hide CommitLoop, DefinedCommit;
    AckTaken(i, s, p, d);
    hide HandleAck;
  }

  /** A leader with nothing to commit passes over a message that is not about appends. */
  lemma {:induction false} Ignores(i: int, s: NodeState, p: Packet)
    requires Alone(i, s) && s.matchIndex[1] <= s.commitIndex && 0 <= p.src < 3
    requires !p.msg.AppendEntriesResponse? && p.msg.term <= s.term
    ensures Takes(i, s, p, s, [])
  {
    OneHolds(i, s.matchIndex, s.commitIndex);
  }

  // ---------------------------------------------------------------- one more step

  /** The hypotheses that a script keeps. */
  datatype Kept = Kept(votes: bool, acks: bool, fifo: bool, ownTerm: bool)

  const EVERY := Kept(true, true, true, true)

  /** A run that ends in c and meets the hypotheses kept. */
  ghost predicate Reaches(h: Kept, r: Run, c: Cluster) {
    && IsRun(3, r) && r.states[|r.steps|] == c
    && (h.votes ==> FreshVotes(3, r)) && (h.acks ==> FreshAcks(3, r))
    && (h.fifo ==> FifoRun(3, r)) && (h.ownTerm ==> OwnTermCommits(3, r))
  }

  lemma {:induction false} Extend(h: Kept, r: Run, c: Cluster, step: Step, c': Cluster) returns (r': Run)
    requires Reaches(h, r, c) && Enabled(3, c, step) && c' == Apply(3, c, step)
    requires h.votes ==> FreshVote(3, c, step)
    requires h.acks ==> FreshAck(3, c, step)
    requires h.fifo ==> Fifo(3, c, step)
    requires h.ownTerm ==> OwnTermCommit(3, c, step)
    ensures Reaches(h, r', c') && r' == Run(r.states + [c'], r.steps + [step])
  {
    hide Enabled, Effect, Apply, FreshVote, FreshAck, Fifo, OwnTermCommit;
    r' := Run(r.states + [c'], r.steps + [step]);
    forall k | 0 <= k < |r'.steps|
      ensures StepsTo(3, r', k)
      ensures k < |r.steps| ==> r'.states[k] == r.states[k] && r'.steps[k] == r.steps[k] && StepsTo(3, r, k)
      ensures k == |r.steps| ==> r'.states[k] == c && r'.steps[k] == step
    {
      if k < |r.steps| {
        assert StepsTo(3, r, k);
      }
    }
  }

  /** The hypotheses on what a node handles and commits, said of the node. */
  predicate Timely(h: Kept, s: NodeState, p: Packet, s': NodeState) {
    && (h.votes ==> s.role == Candidate && CountsVote(s, p) ==> p.msg.term >= s.term)
    && (h.acks ==> s.role == Leader && p.msg.AppendEntriesResponse? && p.msg.success ==> p.msg.term >= s.term)
    && (h.ownTerm ==> OwnTerm(s, s'))
  }

  predicate OwnTerm(s: NodeState, s': NodeState) {
    s.commitIndex < s'.commitIndex && s'.role == Leader
    ==> 0 <= s'.commitIndex < |s'.log| && s'.log[s'.commitIndex].term == s'.term
  }

  predicate First(c: Cluster, p: Packet) {
    forall q | q in c.net && q.src == p.src && q.dst == p.dst :: p.id <= q.id
  }

  // ---------------------------------------------------------------- the steps of a script

  /** A step of node i from state s to s' that sends these messages, as the packets in adds. */
  lemma {:induction false} Continue(h: Kept, r: Run, c: Cluster, step: Step, s': NodeState, sends: seq<Send>,
                                    adds: set<Packet>, c': Cluster) returns (r': Run)
    requires Reaches(h, r, c) && Enabled(3, c, step) && Effect(3, c, step) == Outcome(s', sends)
    requires Handling(c, step).Some? ==> Timely(h, Before(c, step), Handling(c, step).value, s')
    requires Handling(c, step).None? ==> OwnTerm(Before(c, step), s')
    requires h.fifo && step.Deliver? ==> First(c, step.p)
    requires Stamp(Actor(step), c.nextId, sends) == adds
    requires c'.nodes == c.nodes[Actor(step) := s'] && c'.net == Taken(c, step) + adds
    requires c'.nextId == c.nextId + |sends|
    ensures Reaches(h, r', c') && r' == Run(r.states + [c'], r.steps + [step])
  {
    assert c' == Apply(3, c, step);
    hide Enabled, Effect, Apply, Reaches;
    r' := Extend(h, r, c, step, c');
  }

  lemma {:induction false} StampOne(p: Packet)
    ensures Stamp(p.src, p.id, [ToSend(p)]) == {p}
  {
    var sends := [ToSend(p)];
    assert Packet(p.id + 0, p.src, sends[0].dst, sends[0].msg) in Stamp(p.src, p.id, sends);
  }

  lemma {:induction false} StampTwo(p: Packet, q: Packet)
    requires q.id == p.id + 1 && q.src == p.src
    ensures Stamp(p.src, p.id, [ToSend(p), ToSend(q)]) == {p, q}
  {
    var sends := [ToSend(p), ToSend(q)];
    assert Packet(p.id + 0, p.src, sends[0].dst, sends[0].msg) in Stamp(p.src, p.id, sends);
    assert Packet(p.id + 1, p.src, sends[1].dst, sends[1].msg) in Stamp(p.src, p.id, sends);
  }

  /** Packet p can be delivered, and its receiver is in state s. */
  predicate Arriving(h: Kept, c: Cluster, p: Packet, s: NodeState, s': NodeState) {
    && |c.nodes| == 3 && 0 <= p.dst < 3 && c.nodes[p.dst] == s && p in c.net
    && Timely(h, s, p, s') && (h.fifo ==> First(c, p))
  }

  lemma {:induction false} Delivers(h: Kept, c: Cluster, p: Packet, s: NodeState, s': NodeState, sends: seq<Send>)
    requires Arriving(h, c, p, s, s') && Takes(p.dst, s, p, s', sends)
    ensures Enabled(3, c, Deliver(p)) && Effect(3, c, Deliver(p)) == Outcome(s', sends)
    ensures Handling(c, Deliver(p)) == Some(p) && Before(c, Deliver(p)) == s
  {
    hide Receive, Defined;
  }

  lemma {:induction false} DeliverNone(h: Kept, r: Run, c: Cluster, p: Packet, s: NodeState, s': NodeState,
                                       c': Cluster) returns (r': Run)
    requires Reaches(h, r, c) && Takes(p.dst, s, p, s', []) && Arriving(h, c, p, s, s')
    requires c'.nodes == c.nodes[p.dst := s'] && c'.net == c.net - {p} && c'.nextId == c.nextId
    ensures Reaches(h, r', c') && r' == Run(r.states + [c'], r.steps + [Deliver(p)])
  {
    Delivers(h, c, p, s, s', []);
    assert Stamp(p.dst, c.nextId, []) == {};
    hide Enabled, Effect, Reaches, Takes;
    r' := Continue(h, r, c, Deliver(p), s', [], {}, c');
  }

  lemma {:induction false} DeliverOne(h: Kept, r: Run, c: Cluster, p: Packet, s: NodeState, s': NodeState,
                                      q: Packet, c': Cluster) returns (r': Run)
    requires Reaches(h, r, c) && Takes(p.dst, s, p, s', [ToSend(q)]) && Arriving(h, c, p, s, s')
    requires q.id == c.nextId && q.src == p.dst
    requires c'.nodes == c.nodes[p.dst := s'] && c'.net == c.net - {p} + {q} && c'.nextId == c.nextId + 1
    ensures Reaches(h, r', c') && r' == Run(r.states + [c'], r.steps + [Deliver(p)])
  {
    Delivers(h, c, p, s, s', [ToSend(q)]);
    StampOne(q);
    hide Enabled, Effect, Reaches, Takes;
    r' := Continue(h, r, c, Deliver(p), s', [ToSend(q)], {q}, c');
  }

  lemma {:induction false} DeliverTwo(h: Kept, r: Run, c: Cluster, p: Packet, s: NodeState, s': NodeState,
                                      q1: Packet, q2: Packet, c': Cluster) returns (r': Run)
    requires Reaches(h, r, c) && Takes(p.dst, s, p, s', [ToSend(q1), ToSend(q2)]) && Arriving(h, c, p, s, s')
    requires q1.id == c.nextId && q2.id == c.nextId + 1 && q1.src == q2.src == p.dst
    requires c'.nodes == c.nodes[p.dst := s'] && c'.net == c.net - {p} + {q1, q2} && c'.nextId == c.nextId + 2
    ensures Reaches(h, r', c') && r' == Run(r.states + [c'], r.steps + [Deliver(p)])
  {
    Delivers(h, c, p, s, s', [ToSend(q1), ToSend(q2)]);
    StampTwo(q1, q2);
    hide Enabled, Effect, Reaches, Takes;
    r' := Continue(h, r, c, Deliver(p), s', [ToSend(q1), ToSend(q2)], {q1, q2}, c');
  }

  /** Node i, in state s but for p on its queue, resumes p. */
  lemma {:induction false} Resumes(c: Cluster, i: int, p: Packet, s: NodeState, s': NodeState, sends: seq<Send>)
    requires |c.nodes| == 3 && 0 <= i < 3 && c.nodes[i] == s.(queue := [p]) && Takes(i, s, p, s', sends)
    ensures Enabled(3, c, Resume(i)) && Effect(3, c, Resume(i)) == Outcome(s', sends)
    ensures Handling(c, Resume(i)) == Some(p) && Before(c, Resume(i)) == s
  {
    assert Before(c, Resume(i)) == s;
    hide Receive, Defined;
  }

  lemma {:induction false} ResumeNone(h: Kept, r: Run, c: Cluster, i: int, p: Packet, s: NodeState, s': NodeState,
                                      c': Cluster) returns (r': Run)
    requires Reaches(h, r, c) && Takes(i, s, p, s', []) && Timely(h, s, p, s')
    requires |c.nodes| == 3 && 0 <= i < 3 && c.nodes[i] == s.(queue := [p])
    requires c'.nodes == c.nodes[i := s'] && c'.net == c.net && c'.nextId == c.nextId
    ensures Reaches(h, r', c') && r' == Run(r.states + [c'], r.steps + [Resume(i)])
  {
    Resumes(c, i, p, s, s', []);
    assert Stamp(i, c.nextId, []) == {};
    hide Enabled, Effect, Reaches, Takes;
    r' := Continue(h, r, c, Resume(i), s', [], {}, c');
  }

  lemma {:induction false} ResumeOne(h: Kept, r: Run, c: Cluster, i: int, p: Packet, s: NodeState, s': NodeState,
                                     q: Packet, c': Cluster) returns (r': Run)
    requires Reaches(h, r, c) && Takes(i, s, p, s', [ToSend(q)]) && Timely(h, s, p, s')
    requires |c.nodes| == 3 && 0 <= i < 3 && c.nodes[i] == s.(queue := [p]) && q.id == c.nextId && q.src == i
    requires c'.nodes == c.nodes[i := s'] && c'.net == c.net + {q} && c'.nextId == c.nextId + 1
    ensures Reaches(h, r', c') && r' == Run(r.states + [c'], r.steps + [Resume(i)])
  {
    Resumes(c, i, p, s, s', [ToSend(q)]);
    StampOne(q);
    hide Enabled, Effect, Reaches, Takes;
    r' := Continue(h, r, c, Resume(i), s', [ToSend(q)], {q}, c');
  }

  lemma {:induction false} ExpireTwo(h: Kept, r: Run, c: Cluster, i: int, s: NodeState, s': NodeState,
                                     q1: Packet, q2: Packet, c': Cluster) returns (r': Run)
    requires Reaches(h, r, c) && Expires(i, s, s', [ToSend(q1), ToSend(q2)]) && s'.commitIndex == s.commitIndex
    requires |c.nodes| == 3 && 0 <= i < 3 && c.nodes[i] == s
    requires q1.id == c.nextId && q2.id == c.nextId + 1 && q1.src == q2.src == i
    requires c'.nodes == c.nodes[i := s'] && c'.net == c.net + {q1, q2} && c'.nextId == c.nextId + 2
    ensures Reaches(h, r', c') && r' == Run(r.states + [c'], r.steps + [Timeout(i)])
  {
    StampTwo(q1, q2);
    hide Reaches, Expire;
    r' := Continue(h, r, c, Timeout(i), s', [ToSend(q1), ToSend(q2)], {q1, q2}, c');
  }

  /** A client's command reaches a leader. */
  lemma {:induction false} Commands(h: Kept, r: Run, c: Cluster, i: int, s: NodeState, s': NodeState, e: Entry,
                                    c': Cluster) returns (r': Run)
    requires Reaches(h, r, c) && |c.nodes| == 3 && 0 <= i < 3 && c.nodes[i] == s && Idle(i, s) && s.role == Leader
    requires e.index == |s.log| && e.term == s.term && s' == s.(log := s'.log) && s'.log == s.log + [e]
    requires c'.nodes == c.nodes[i := s'] && c'.net == c.net && c'.nextId == c.nextId
    ensures Reaches(h, r', c') && r' == Run(r.states + [c'], r.steps + [ClientRequest(i, e.cmd, e.clientId)])
  {
    var step := ClientRequest(i, e.cmd, e.clientId);
    assert Stamp(i, c.nextId, []) == {};
    hide Reaches;
    r' := Continue(h, r, c, step, s', [], {}, c');
  }

  lemma {:induction false} EndsIn(h: Kept, r: Run, c: Cluster)
    requires Reaches(h, r, c)
    ensures |r.states| == |r.steps| + 1 && r.states[|r.steps|] == c
  {
  }

  lemma {:induction false} Opens(h: Kept, c: Cluster) returns (r: Run)
    requires c == Boot(3)
    ensures Reaches(h, r, c)
  {
    r := Run([c], []);
  }
}
