/** What a node does with a message: its answer, its role and its term, for any number of nodes and in any run. */
module Answers {
  import opened Types
  import opened NodeSpec
  import opened Clusters
  import opened History
  import opened BaseStep
  import opened NodeFacts
  import opened Broadcasts

  function Max(a: int, b: int): int {
    if a >= b then a else b
  }

  /** Node i, up, handles message p in step k. */
  ghost predicate HandlesIn(n: int, r: Run, k: nat, i: int, p: Packet) {
    ActsAt(n, r, k, i) && Handling(r.states[k], r.steps[k]) == Some(p)
  }

  /** What a node replicates, saves and answers. */
  predicate SameRecord(s: NodeState, s': NodeState) {
    s'.log == s.log && s'.commitIndex == s.commitIndex && s'.saved == s.saved && s'.replied == s.replied
  }

  // ---------------------------------------------------------------- a follower

  /** The append is of the node's term or a later one and fits its log. */
  predicate Fitting(s: NodeState, m: Message) {
    && m.AppendEntries? && m.term >= s.term
    && (m.prevLogIndex == -1
        || (0 <= m.prevLogIndex < |s.log| && s.log[m.prevLogIndex].term == m.prevLogTerm))
  }

  /** The entries from index lo to below hi of the log follow what was saved before. */
  predicate Saves(s: NodeState, s': NodeState, lo: int, hi: int) {
    && 0 <= lo <= hi <= |s'.log| && |s'.saved| == |s.saved| + hi - lo && s.saved <= s'.saved
    && forall x | lo <= x < hi :: s'.saved[|s.saved| + x - lo] == s'.log[x]
  }

  /** The append's entries replace all after prevLogIndex, and commitIndex becomes the leader's. */
  ghost predicate Stored(s: NodeState, m: Message, s': NodeState) {
    && Fitting(s, m)
    && |s'.log| == m.prevLogIndex + 1 + |m.entries|
    && (forall x | 0 <= x <= m.prevLogIndex :: s'.log[x] == s.log[x])
    && (forall x | 0 <= x < |m.entries| :: s'.log[m.prevLogIndex + 1 + x] == m.entries[x])
    && s'.commitIndex == m.leaderCommit && s'.replied == s.replied
    && (if m.leaderCommit <= s.commitIndex then s'.saved == s.saved
        else Saves(s, s', s.commitIndex + 1, m.leaderCommit + 1))
  }

  /** A follower answers a request with its term and whether the sender has its vote in the request's term. */
  ghost predicate Voting(s: NodeState, p: Packet, s': NodeState, sends: seq<Send>) {
    && SameRecord(s, s')
    && sends == [Send(p.src, RequestVoteResponse(s'.term, p.msg.term == s'.term && s'.votedFor == Some(p.src)))]
  }

  /** A follower stores a fitting append, which it answers when it has entries, and rejects any other. */
  ghost predicate Appending(s: NodeState, p: Packet, s': NodeState, sends: seq<Send>) {
    if Fitting(s, p.msg)
    then Stored(s, p.msg, s')
         && sends == (if p.msg.entries == [] then []
                      else [Send(p.src, AppendEntriesResponse(s'.term, true, |s'.log|))])
    else SameRecord(s, s') && sends == [Send(p.src, AppendEntriesResponse(s'.term, false, |s'.log|))]
  }

  ghost predicate FollowerAnswer(s: NodeState, p: Packet, s': NodeState, sends: seq<Send>) {
    && s'.role == Follower && s'.term == Max(s.term, p.msg.term)
    && (!p.msg.RequestVote? ==> s'.votedFor == if p.msg.term > s.term then None else s.votedFor)
    && match p.msg
       case RequestVote(_, _, _, _) => Voting(s, p, s', sends)
       case AppendEntries(_, _, _, _, _, _) => Appending(s, p, s', sends)
       case _ => SameRecord(s, s') && sends == []
  }

  lemma {:induction false} FollowerVotes(n: int, i: int, s: NodeState, p: Packet)
    requires Shaped(n, i, s) && Defined(n, i, s, p) && s.role == Follower && p.msg.RequestVote?
    ensures var o := Receive(n, i, s, p); FollowerAnswer(s, p, o.node, o.sends)
  {
  }

  lemma {:induction false} Spliced(log: seq<Entry>, cut: nat, es: seq<Entry>, log': seq<Entry>)
    requires cut <= |log| && log' == log[..cut] + es
    ensures |log'| == cut + |es|
    ensures (forall x | 0 <= x < cut :: log'[x] == log[x]) && forall x | 0 <= x < |es| :: log'[cut + x] == es[x]
  {
  }

  lemma {:induction false} SlicedOn(s: NodeState, s': NodeState, lo: int, hi: int)
    requires 0 <= lo <= hi <= |s'.log| && s'.saved == s.saved + s'.log[lo..hi]
    ensures Saves(s, s', lo, hi)
  {
  }

  lemma {:induction false} FollowerStores(s: NodeState, a: NodeState, m: Message, s': NodeState)
    requires Accepts(a, m) && DefinedAppend(a, m) && a.log == s.log && a.commitIndex == s.commitIndex
    requires a.saved == s.saved && a.replied == s.replied && m.term >= s.term
    requires var b := AcceptAppend(a, m);
             s'.log == b.log && s'.commitIndex == b.commitIndex && s'.saved == b.saved && s'.replied == b.replied
    ensures Stored(s, m, s')
  {
    Spliced(s.log, m.prevLogIndex + 1, m.entries, s'.log);
    if m.leaderCommit > s.commitIndex {
      SlicedOn(s, s', s.commitIndex + 1, m.leaderCommit + 1);
    }
    hide Saves, Consistent;
  }

  lemma {:induction false} FollowerAppends(n: int, i: int, s: NodeState, p: Packet)
    requires Shaped(n, i, s) && Defined(n, i, s, p) && s.role == Follower && p.msg.AppendEntries?
    ensures var o := Receive(n, i, s, p); FollowerAnswer(s, p, o.node, o.sends)
  {
    var (a, o) := (AdoptTerm(s, p.msg.term), Receive(n, i, s, p));
    assert Fitting(s, p.msg) <==> Accepts(a, p.msg);
    if Accepts(a, p.msg) {
      FollowerStores(s, a, p.msg, o.node);
      hide AcceptAppend, AcceptedLog;
    }
    hide Stored;
  }

  lemma {:induction false} FollowerAnswers(n: int, i: int, s: NodeState, p: Packet)
    requires Shaped(n, i, s) && Defined(n, i, s, p) && s.role == Follower
    ensures var o := Receive(n, i, s, p); FollowerAnswer(s, p, o.node, o.sends)
  {
    match p.msg {
      case RequestVote(_, _, _, _) => FollowerVotes(n, i, s, p);
      case AppendEntries(_, _, _, _, _, _) => FollowerAppends(n, i, s, p);
      case _ =>
    }
  }

  lemma {:induction false} QueueAside(s: NodeState, b: NodeState, p: Packet, s': NodeState, sends: seq<Send>)
    requires b == s.(queue := b.queue) && FollowerAnswer(b, p, s', sends)
    ensures FollowerAnswer(s, p, s', sends)
  {
  }

  /**
    In any run a follower answers every request for its vote and every append it rejects, and every append with
    entries that it stores, once, to the sender, and nothing else; it stores exactly the appends that fit.
   */
  lemma {:induction false} FollowersAnswer(n: int, r: Run, k: nat, i: int, p: Packet)
    requires IsRun(n, r) && HandlesIn(n, r, k, i, p) && r.states[k].nodes[i].role == Follower
    ensures FollowerAnswer(r.states[k].nodes[i], p, r.states[k + 1].nodes[i], SendsAt(n, r, k))
  {
    assert StepsTo(n, r, k);
    var b := Before(r.states[k], r.steps[k]);
    FollowerAnswers(n, i, b, p);
    hide Receive, Defined, FollowerAnswer;
    QueueAside(r.states[k].nodes[i], b, p, r.states[k + 1].nodes[i], SendsAt(n, r, k));
  }

  // ---------------------------------------------------------------- a candidate or a leader

  /** The node becomes a follower in the message's term, keeps the message for later, and sends nothing. */
  ghost predicate Yields(s: NodeState, p: Packet, s': NodeState, sends: seq<Send>) {
    && s'.role == Follower && s'.term == p.msg.term && s'.queue == [p] && SameRecord(s, s') && sends == []
    && s'.votedFor == if p.msg.term > s.term then None else s.votedFor
  }

  /** The vote that a candidate needs to win, counted with those it has. */
  predicate Wins(n: int, s: NodeState, p: Packet) {
    && p.msg.RequestVoteResponse? && p.msg.voteGranted && p.msg.term <= s.term
    && |GrantedSet(s.granted) + {p.src}| + 1 > n / 2
  }

  /** A candidate yields to a higher term or to an append of its own, wins, or waits without a word. */
  ghost predicate CandidateAnswer(n: int, i: int, s: NodeState, p: Packet, s': NodeState, sends: seq<Send>) {
    if p.msg.term > s.term || (p.msg.AppendEntries? && p.msg.term == s.term) then Yields(s, p, s', sends)
    else
      && s'.term == s.term && s'.votedFor == s.votedFor && s'.queue == [] && SameRecord(s, s')
      && if Wins(n, s, p) then s'.role == Leader && Updating(n, i, s', sends)
         else s'.role == Candidate && sends == []
              && |s'.granted| == |s.granted| == n
              && GrantedSet(s'.granted)
                 == GrantedSet(s.granted)
                    + if p.msg.RequestVoteResponse? && p.msg.voteGranted then {p.src} else {}
  }

  lemma {:induction false} CandidateYields(n: int, i: int, s: NodeState, p: Packet)
    requires Shaped(n, i, s) && Defined(n, i, s, p) && s.role == Candidate && s.queue == []
    requires p.msg.term > s.term || (p.msg.AppendEntries? && p.msg.term == s.term)
    ensures var o := Receive(n, i, s, p); Yields(s, p, o.node, o.sends)
  {
  }

  /** A vote that is not enough is marked; one that was marked before changes nothing. */
  lemma {:induction false} CandidateMarks(n: int, i: int, s: NodeState, p: Packet)
    requires Shaped(n, i, s) && Defined(n, i, s, p) && s.role == Candidate && s.queue == []
    requires p.msg.RequestVoteResponse? && p.msg.voteGranted && p.msg.term <= s.term
    requires CountOk(s) && |GrantedSet(s.granted) + {p.src}| + 1 <= n / 2
    ensures var o := Receive(n, i, s, p); CandidateAnswer(n, i, s, p, o.node, o.sends)
  {
    if s.granted[p.src] {
      assert GrantedSet(s.granted) + {p.src} == GrantedSet(s.granted);
    } else {
      GrantedOneMore(s.granted, p.src);
    }
  }

  lemma {:induction false} CandidateWins(n: int, i: int, s: NodeState, p: Packet)
    requires Shaped(n, i, s) && Defined(n, i, s, p) && s.role == Candidate && s.queue == []
    requires CountOk(s) && |GrantedSet(s.granted)| + 1 <= n / 2 && Wins(n, s, p)
    ensures var o := Receive(n, i, s, p); CandidateAnswer(n, i, s, p, o.node, o.sends)
  {
    assert s.granted[p.src] ==> GrantedSet(s.granted) + {p.src} == GrantedSet(s.granted);
    GrantedOneMore(s.granted, p.src);
    var o := Receive(n, i, s, p);
    assert o.node.role == Leader && SameRecord(s, o.node) && o.node.votedFor == s.votedFor && o.node.queue == [];
    WinnerUpdates(n, i, s, p);
    hide Receive, Updating;
  }

  lemma {:induction false} CandidateWaits(n: int, i: int, s: NodeState, p: Packet)
    requires Shaped(n, i, s) && Defined(n, i, s, p) && s.role == Candidate && s.queue == []
    requires p.msg.term <= s.term && !(p.msg.AppendEntries? && p.msg.term == s.term)
    requires !(p.msg.RequestVoteResponse? && p.msg.voteGranted)
    ensures var o := Receive(n, i, s, p); CandidateAnswer(n, i, s, p, o.node, o.sends)
  {
  }

  lemma {:induction false} CandidateAnswers(n: int, i: int, s: NodeState, p: Packet)
    requires Shaped(n, i, s) && Defined(n, i, s, p) && s.role == Candidate && s.queue == []
    requires CountOk(s) && |GrantedSet(s.granted)| + 1 <= n / 2
    ensures var o := Receive(n, i, s, p); CandidateAnswer(n, i, s, p, o.node, o.sends)
  {
    if p.msg.term > s.term || (p.msg.AppendEntries? && p.msg.term == s.term) {
      CandidateYields(n, i, s, p);
    } else if !(p.msg.RequestVoteResponse? && p.msg.voteGranted) {
      CandidateWaits(n, i, s, p);
    } else if Wins(n, s, p) {
      CandidateWins(n, i, s, p);
    } else {
      CandidateMarks(n, i, s, p);
    }
    hide Receive;
  }

  /** A leader yields to a higher term; a rejection makes it step back by one and send again; the rest is silent. */
  ghost predicate LeaderAnswer(n: int, i: int, s: NodeState, p: Packet, s': NodeState, sends: seq<Send>) {
    if p.msg.term > s.term then Yields(s, p, s', sends)
    else
      && s'.role == Leader && s'.term == s.term && s'.votedFor == s.votedFor && s'.log == s.log && s'.queue == []
      && |s'.nextIndex| == |s.nextIndex| == n == |s.matchIndex| == |s'.matchIndex|
      && if !p.msg.AppendEntriesResponse? then
           s'.nextIndex == s.nextIndex && s'.matchIndex == s.matchIndex && sends == []
         else
           && 0 <= p.src < n
           && (forall f | 0 <= f < n && f != p.src ::
                 s'.nextIndex[f] == s.nextIndex[f] && s'.matchIndex[f] == s.matchIndex[f])
           && if p.msg.success then
                s'.nextIndex[p.src] == p.msg.newIndex == s'.matchIndex[p.src] + 1 && sends == []
              else
                && s'.nextIndex[p.src] == s.nextIndex[p.src] - 1 && s'.matchIndex[p.src] == s.matchIndex[p.src]
                && |sends| == 1 && sends[0].dst == p.src
                && Brings(i, s', s.commitIndex, p.src, sends[0].msg)
  }

  lemma {:induction false} LoopKeeps(n: int, i: int, s: NodeState)
    requires Shaped(n, i, s) && DefinedCommit(n, i, s)
    ensures CommitLoop(n, i, s) == s.(commitIndex := CommitLoop(n, i, s).commitIndex,
                                      saved := CommitLoop(n, i, s).saved, replied := CommitLoop(n, i, s).replied)
  {
  }

  lemma {:induction false} LeaderYields(n: int, i: int, s: NodeState, p: Packet)
    requires Shaped(n, i, s) && Defined(n, i, s, p) && s.role == Leader && s.queue == [] && p.msg.term > s.term
    ensures var o := Receive(n, i, s, p); Yields(s, p, o.node, o.sends)
  {
  }

  /** What a response does to what the leader knows, before the commit loop. */
  lemma {:induction false} ResponseTaken(n: int, i: int, s: NodeState, p: Packet)
    requires Shaped(n, i, s) && 0 <= p.src < n && DefinedAck(s, p) && s.role == Leader && s.queue == []
    requires p.msg.term <= s.term
    ensures var o := HandleAck(i, s, p); LeaderAnswer(n, i, s, p, o.node, o.sends)
  {
    if p.msg.AppendEntriesResponse? && !p.msg.success {
      BringsRest(i, HandleAck(i, s, p).node, p.src);
    }
    hide AppendFor, Brings;
  }

  lemma {:induction false} AfterLoop(n: int, i: int, s: NodeState, p: Packet, d: NodeState, s': NodeState,
                                     sends: seq<Send>)
    requires LeaderAnswer(n, i, s, p, d, sends) && p.msg.term <= s.term
    requires s' == d.(commitIndex := s'.commitIndex, saved := s'.saved, replied := s'.replied)
    ensures LeaderAnswer(n, i, s, p, s', sends)
  {
  }

  lemma {:induction false} LeaderAnswers(n: int, i: int, s: NodeState, p: Packet)
    requires Shaped(n, i, s) && Defined(n, i, s, p) && s.role == Leader && s.queue == []
    ensures var o := Receive(n, i, s, p); LeaderAnswer(n, i, s, p, o.node, o.sends)
  {
    if p.msg.term > s.term {
      LeaderYields(n, i, s, p);
      hide Receive, Yields;
    } else {
      var (a, o) := (HandleAck(i, s, p), Receive(n, i, s, p));
      ResponseTaken(n, i, s, p);
      LoopKeeps(n, i, a.node);
      assert o == Outcome(CommitLoop(n, i, a.node), a.sends);
      hide Receive, HandleAck, CommitLoop, LeaderAnswer;
      AfterLoop(n, i, s, p, a.node, o.node, o.sends);
    }
  }

  /** In any run a leader answers nothing but a rejection, which it answers with what the node lacks. */
  lemma {:induction false} LeadersAnswer(n: int, r: Run, k: nat, i: int, p: Packet)
    requires IsRun(n, r) && HandlesIn(n, r, k, i, p) && r.states[k].nodes[i].role == Leader
    ensures LeaderAnswer(n, i, r.states[k].nodes[i], p, r.states[k + 1].nodes[i], SendsAt(n, r, k))
  {
    assert StepsTo(n, r, k);
    QueueHoldsOne(n, r, k, i);
    LeaderAnswers(n, i, r.states[k].nodes[i], p);
    hide Receive, LeaderAnswer;
  }

  // ---------------------------------------------------------------- steps without a message

  /** The node keeps its role, its term, its vote and its record, and is up; votes counted so far are forgotten. */
  ghost predicate Restarted(s: NodeState, s': NodeState) {
    && s' == s.(crashed := false, granted := s'.granted, voteCount := 0)
    && forall v | 0 <= v < |s'.granted| :: !s'.granted[v]
  }

  /**
    In any run: a crash only takes the node down, and a crashed node drops what is delivered; a leader appends a
    client's command to its log, and no other node heeds it; a follower recovers in silence, and a leader that recovers
    or times out only repeats its appends. What else a step without a message does is to stand for election.
   */
  lemma {:induction false} NodesWithoutMessage(n: int, r: Run, k: nat, i: int)
    requires IsRun(n, r) && ActsAt(n, r, k, i) && Handling(r.states[k], r.steps[k]).None?
    requires !StandsAnew(r.states[k].nodes[i], r.steps[k])
    ensures var (s, s', sends, step) := (r.states[k].nodes[i], r.states[k + 1].nodes[i], SendsAt(n, r, k), r.steps[k]);
            && (match step
                case Deliver(_) => s.crashed && s' == s
                case Crash(_) => !s.crashed && s' == s.(crashed := true)
                case ClientRequest(_, cmd, clientId) =>
                  s' == s.(log := s.log + if s.role == Leader then [Entry(|s.log|, s.term, cmd, clientId)] else [])
                case Timeout(_) => s.role == Leader && Restarted(s, s')
                case Recovery(_) => s.crashed && Restarted(s, s')
                case Resume(_) => false)
            && (step.Timeout? || (step.Recovery? && s.role == Leader) || sends == [])
  {
    assert StepsTo(n, r, k);
    QueueHoldsOne(n, r, k, i);
    hide Updates;
  }
}
