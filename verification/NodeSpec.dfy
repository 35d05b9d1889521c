/**
  What one node does with one input, as functions on its abstract value.
  The cluster is built from these functions; the classes of module Node refine them.
  Node ranks are 0..n-1 and `me` is the rank of the node at hand.
 */
module NodeSpec {
  import opened Types

  datatype Outcome = Outcome(node: NodeState, sends: seq<Send>)

  /** The result of a cycle's message handler: `leave` ends the cycle, `next` is its nextState. */
  datatype Handled = Handled(node: NodeState, sends: seq<Send>, leave: bool, next: Option<Role>)

  predicate Shaped(n: int, me: int, s: NodeState) {
    n >= 2 && 0 <= me < n && |s.matchIndex| == n && |s.nextIndex| == n && |s.granted| == n
  }

  function InitialNode(n: nat): NodeState {
    NodeState(Follower, 0, None, [], -1, seq(n, _ => -1), seq(n, _ => 0), false, [],
              seq(n, _ => false), 0, [], [])
  }

  // ---------------------------------------------------------------- logs

  function LastTerm(log: seq<Entry>): int {
    if log == [] then -1 else log[|log| - 1].term
  }

  /** The voter's test of a candidate's last index and term against its own log. */
  predicate Grants(log: seq<Entry>, lastLogIndex: int, lastLogTerm: int) {
    log == []
    || LastTerm(log) < lastLogTerm
    || (LastTerm(log) == lastLogTerm && |log| - 1 <= lastLogIndex)
  }

  /** The follower's consistency test of an append. */
  predicate Consistent(log: seq<Entry>, m: Message)
    requires m.AppendEntries? && m.prevLogIndex >= -1
  {
    m.prevLogIndex == -1 || (m.prevLogIndex < |log| && log[m.prevLogIndex].term == m.prevLogTerm)
  }

  predicate Accepts(s: NodeState, m: Message) {
    m.AppendEntries? && m.prevLogIndex >= -1 && m.term >= s.term && Consistent(s.log, m)
  }

  /** The length of the sender's log when it sent the append. */
  function Total(m: Message): int
    requires m.AppendEntries?
  {
    m.prevLogIndex + 1 + |m.entries|
  }

  // ---------------------------------------------------------------- commit loop

  function Matched(n: int, me: int, matchIndex: seq<int>, k: int): set<int>
    requires |matchIndex| == n
  {
    set v | 0 <= v < n && (v == me || matchIndex[v] >= k)
  }

  function MaxOf(xs: seq<int>): int
    requires xs != []
  {
    if |xs| == 1 then xs[0]
    else
      var m := MaxOf(xs[..|xs| - 1]);
      if m < xs[|xs| - 1] then xs[|xs| - 1] else m
  }

  lemma {:induction false} MaxOfBounds(xs: seq<int>, v: int)
    requires 0 <= v < |xs|
    ensures xs[v] <= MaxOf(xs)
  {
    if |xs| > 1 && v < |xs| - 1 {
      MaxOfBounds(xs[..|xs| - 1], v);
    }
  }

  /** With at least two nodes a majority holds some other node, so the commit loop stops. */
  lemma {:induction false} MajorityBoundsCommit(n: int, me: int, matchIndex: seq<int>, k: int)
    requires n >= 2 && 0 <= me < n && |matchIndex| == n
    requires |Matched(n, me, matchIndex, k)| > n / 2
    ensures k <= MaxOf(matchIndex)
  {
    var m := Matched(n, me, matchIndex, k);
    var others := m - {me};
    assert m <= others + {me};
    assert |others| >= 1;
    var v :| v in others;
    MaxOfBounds(matchIndex, v);
  }

  /** Where the commit loop leaves commitIndex when it starts at c. */
  function CommitTarget(n: int, me: int, matchIndex: seq<int>, c: int): int
    requires n >= 2 && 0 <= me < n && |matchIndex| == n
    decreases MaxOf(matchIndex) - c
  {
    if |Matched(n, me, matchIndex, c + 1)| > n / 2 then
      MajorityBoundsCommit(n, me, matchIndex, c + 1);
      CommitTarget(n, me, matchIndex, c + 1)
    else
      c
  }

  function Clients(es: seq<Entry>): seq<int> {
    seq(|es|, i requires 0 <= i < |es| => es[i].clientId)
  }

  function CommitLoop(n: int, me: int, s: NodeState): NodeState
    requires Shaped(n, me, s) && DefinedCommit(n, me, s)
  {
    var c := CommitTarget(n, me, s.matchIndex, s.commitIndex);
    if c <= s.commitIndex then s
    else s.(commitIndex := c,
            saved := s.saved + s.log[s.commitIndex + 1..c + 1],
            replied := s.replied + Clients(s.log[s.commitIndex + 1..c + 1]))
  }

  // ---------------------------------------------------------------- sending

  function AppendFor(me: int, s: NodeState, dst: int): (m: Message)
    requires 0 <= dst < |s.nextIndex| && s.nextIndex[dst] >= 0
    ensures m.AppendEntries? && m.term == s.term
  {
    var prev := s.nextIndex[dst] - 1;
    AppendEntries(s.term, me, prev, if 0 <= prev < |s.log| then s.log[prev].term else 0, s.commitIndex,
                  if prev + 1 <= |s.log| then s.log[prev + 1..] else [])
  }

  /** The appends a leader sends to the nodes below d. */
  function Updates(me: int, s: NodeState, d: int): seq<Send>
    requires 0 <= d <= |s.nextIndex|
    requires forall f | 0 <= f < |s.nextIndex| :: s.nextIndex[f] >= 0
    decreases d
  {
    if d == 0 then []
    else Updates(me, s, d - 1) + (if d - 1 == me then [] else [Send(d - 1, AppendFor(me, s, d - 1))])
  }

  function VoteRequest(me: int, s: NodeState): Message {
    RequestVote(s.term, me, |s.log| - 1, LastTerm(s.log))
  }

  /** The vote requests a candidate sends to the nodes below d. */
  function VoteRequests(me: int, s: NodeState, d: int): seq<Send>
    decreases d
  {
    if d <= 0 then []
    else VoteRequests(me, s, d - 1) + (if d - 1 == me then [] else [Send(d - 1, VoteRequest(me, s))])
  }

  // ---------------------------------------------------------------- cycles

  function AdoptTerm(s: NodeState, t: int): NodeState {
    if t > s.term then s.(term := t, votedFor := None) else s
  }

  /** A higher term makes a candidate or a leader step down and put the message back. */
  predicate StepsDown(s: NodeState, p: Packet) {
    p.msg.term > s.term && s.role != Follower
  }

  function InitLeader(n: nat, s: NodeState): NodeState {
    s.(matchIndex := seq(n, _ => -1), nextIndex := seq(n, _ => |s.log|))
  }

  function Campaign(me: int, s: NodeState): NodeState {
    s.(term := s.term + 1, votedFor := Some(me), voteCount := s.voteCount + 1)
  }

  function FreshCycle(n: nat, s: NodeState): NodeState {
    s.(granted := seq(n, _ => false), voteCount := 0)
  }

  /** A new cycle object followed by its pre_cycle. */
  function Enter(n: int, me: int, s: NodeState): Outcome
    requires Shaped(n, me, s) && DefinedEnter(s)
  {
    var f := FreshCycle(n, s);
    match s.role
    case Follower => Outcome(f, [])
    case Leader => Outcome(f, Updates(me, f, n))
    case Candidate => var c := Campaign(me, f); Outcome(c, VoteRequests(me, c, n))
  }

  /** post_cycle and the change of state that follows it. */
  function Leave(n: nat, s: NodeState, next: Option<Role>): NodeState {
    match next
    case None => s
    case Some(r) => (if s.role == Candidate && r == Leader then InitLeader(n, s) else s).(role := r)
  }

  // ---------------------------------------------------------------- follower

  function HandleRequestVote(s: NodeState, p: Packet): Outcome
    requires p.msg.RequestVote?
  {
    if p.msg.term < s.term then
      Outcome(s, [Send(p.src, RequestVoteResponse(s.term, false))])
    else if s.votedFor.Some? then
      Outcome(s, [Send(p.src, RequestVoteResponse(s.term, s.votedFor.value == p.src))])
    else if Grants(s.log, p.msg.lastLogIndex, p.msg.lastLogTerm) then
      Outcome(s.(votedFor := Some(p.src)), [Send(p.src, RequestVoteResponse(s.term, true))])
    else
      Outcome(s, [Send(p.src, RequestVoteResponse(s.term, false))])
  }

  function AcceptedLog(s: NodeState, m: Message): seq<Entry>
    requires Accepts(s, m)
  {
    s.log[..m.prevLogIndex + 1] + m.entries
  }

  function AcceptAppend(s: NodeState, m: Message): NodeState
    requires Accepts(s, m) && DefinedAppend(s, m)
  {
    var log := AcceptedLog(s, m);
    s.(log := log, commitIndex := m.leaderCommit,
       saved := s.saved + if m.leaderCommit > s.commitIndex then log[s.commitIndex + 1..m.leaderCommit + 1] else [])
  }

  function HandleAppendEntries(s: NodeState, p: Packet): Outcome
    requires p.msg.AppendEntries? && DefinedAppend(s, p.msg)
  {
    if !Accepts(s, p.msg) then
      Outcome(s, [Send(p.src, AppendEntriesResponse(s.term, false, |s.log|))])
    else
      var a := AcceptAppend(s, p.msg);
      Outcome(a, if p.msg.entries == [] then [] else [Send(p.src, AppendEntriesResponse(a.term, true, |a.log|))])
  }

  function FollowerHandle(s: NodeState, p: Packet): Handled
    requires p.msg.AppendEntries? ==> DefinedAppend(s, p.msg)
  {
    match p.msg
    case RequestVote(_, _, _, _) =>
      var o := HandleRequestVote(s, p); Handled(o.node, o.sends, true, None)
    case AppendEntries(_, _, _, _, _, _) =>
      var o := HandleAppendEntries(s, p); Handled(o.node, o.sends, true, None)
    case _ => Handled(s, [], false, None)
  }

  // ---------------------------------------------------------------- candidate

  predicate CountsVote(s: NodeState, p: Packet) {
    p.msg.RequestVoteResponse? && p.msg.voteGranted && 0 <= p.src < |s.granted| && !s.granted[p.src]
  }

  function CandidateHandle(n: int, s: NodeState, p: Packet): Handled {
    if CountsVote(s, p) then
      var c := s.(granted := s.granted[p.src := true], voteCount := s.voteCount + 1);
      if c.voteCount > n / 2 then Handled(c, [], true, Some(Leader)) else Handled(c, [], false, None)
    else if p.msg.AppendEntries? && p.msg.term >= s.term then
      Handled(s.(queue := s.queue + [p]), [], true, Some(Follower))
    else
      Handled(s, [], false, None)
  }

  // ---------------------------------------------------------------- leader

  function HandleAck(me: int, s: NodeState, p: Packet): Outcome
    requires 0 <= p.src < |s.nextIndex| == |s.matchIndex|
    requires DefinedAck(s, p)
  {
    if !p.msg.AppendEntriesResponse? then Outcome(s, [])
    else if p.msg.success then
      Outcome(s.(nextIndex := s.nextIndex[p.src := p.msg.newIndex],
                 matchIndex := s.matchIndex[p.src := p.msg.newIndex - 1]), [])
    else
      var d := s.(nextIndex := s.nextIndex[p.src := s.nextIndex[p.src] - 1]);
      Outcome(d, [Send(p.src, AppendFor(me, d, p.src))])
  }

  function LeaderHandle(n: int, me: int, s: NodeState, p: Packet): Handled
    requires Shaped(n, me, s) && 0 <= p.src < n
    requires DefinedAck(s, p) && DefinedCommit(n, me, HandleAck(me, s, p).node)
  {
    var o := HandleAck(me, s, p);
    Handled(CommitLoop(n, me, o.node), o.sends, false, None)
  }

  function ClientAppend(s: NodeState, cmd: string, clientId: int): NodeState {
    if s.role == Leader then s.(log := s.log + [Entry(|s.log|, s.term, cmd, clientId)]) else s
  }

  // ---------------------------------------------------------------- inputs

  function Handle(n: int, me: int, s: NodeState, p: Packet): Handled
    requires Shaped(n, me, s) && Defined(n, me, s, p)
  {
    var a := AdoptTerm(s, p.msg.term);
    if StepsDown(s, p) then Handled(a.(queue := a.queue + [p]), [], true, Some(Follower))
    else match s.role
      case Follower => FollowerHandle(a, p)
      case Candidate => CandidateHandle(n, a, p)
      case Leader => LeaderHandle(n, me, a, p)
  }

  /** One message, up to the point where the node waits for the next input. */
  function Receive(n: int, me: int, s: NodeState, p: Packet): Outcome
    requires Shaped(n, me, s) && Defined(n, me, s, p)
  {
    var h := Handle(n, me, s, p);
    if h.leave then
      var e := Enter(n, me, Leave(n, h.node, h.next));
      Outcome(e.node, h.sends + e.sends)
    else
      Outcome(h.node, h.sends)
  }

  /** The cycle's timer runs out. */
  function Expire(n: int, me: int, s: NodeState): Outcome
    requires Shaped(n, me, s) && DefinedEnter(s)
  {
    Enter(n, me, Leave(n, s, if s.role == Follower then Some(Candidate) else None))
  }

  /** A crashed node is told to recover: it leaves the cycle it crashed in and starts the next one. */
  function Recover(n: int, me: int, s: NodeState): Outcome
    requires Shaped(n, me, s) && DefinedEnter(s)
  {
    Enter(n, me, s.(crashed := false))
  }

  // ---------------------------------------------------------------- where the source is defined
  // The conditions under which no assertion of the source fails and no vector is read out of bounds.

  predicate DefinedEnter(s: NodeState) {
    s.role == Leader ==> forall f | 0 <= f < |s.nextIndex| :: s.nextIndex[f] >= 0
  }

  predicate DefinedAppend(s: NodeState, m: Message)
    requires m.AppendEntries?
  {
    m.term >= s.term ==>
      && m.prevLogIndex >= -1
      && (Consistent(s.log, m) ==>
            && s.commitIndex >= -1
            && m.leaderCommit < Total(m)
            && forall k | 0 <= k < |m.entries| :: m.entries[k].index == m.prevLogIndex + 1 + k)
  }

  predicate DefinedAck(s: NodeState, p: Packet) {
    p.msg.AppendEntriesResponse? && !p.msg.success ==> 0 <= p.src < |s.nextIndex| && s.nextIndex[p.src] >= 1
  }

  predicate DefinedCommit(n: int, me: int, s: NodeState)
    requires Shaped(n, me, s)
  {
    -1 <= s.commitIndex < |s.log| && CommitTarget(n, me, s.matchIndex, s.commitIndex) < |s.log|
  }

  predicate Defined(n: int, me: int, s: NodeState, p: Packet)
    requires Shaped(n, me, s)
  {
    && 0 <= p.src < n
    && (!StepsDown(s, p) ==>
          var a := AdoptTerm(s, p.msg.term);
          && (s.role == Follower && p.msg.AppendEntries? ==> DefinedAppend(a, p.msg))
          && (s.role == Leader ==> DefinedAck(a, p) && DefinedCommit(n, me, HandleAck(me, a, p).node)))
  }
}
