/** A summary of what one step can do to the acting node, for proofs that need no more. */
module Moves {
  import opened Types
  import opened NodeSpec
  import opened Clusters
  import opened Sends

  /** The input is an append that the node, as a follower, accepts. */
  predicate Accepted(s: NodeState, p: Option<Packet>) {
    p.Some? && s.role == Follower && Accepts(AdoptTerm(s, p.value.msg.term), p.value.msg)
  }

  /** The input is a success response from f. */
  predicate AckFrom(p: Option<Packet>, f: int) {
    p.Some? && p.value.src == f && p.value.msg.AppendEntriesResponse? && p.value.msg.success
  }

  ghost predicate AcceptMove(s: NodeState, p: Packet, s': NodeState)
    requires Accepted(s, Some(p))
  {
    && s'.role == Follower
    && s'.term == p.msg.term
    && s'.votedFor == AdoptTerm(s, p.msg.term).votedFor
    && s'.log == AcceptedLog(AdoptTerm(s, p.msg.term), p.msg)
    && |s'.log| == Total(p.msg)
    && s'.commitIndex == p.msg.leaderCommit
    && s'.saved == s.saved + (if s.commitIndex < s'.commitIndex < |s'.log| && -1 <= s.commitIndex
                              then s'.log[s.commitIndex + 1..s'.commitIndex + 1] else [])
  }

  /** A node that does not end as leader keeps what it replicated, unless it accepted an append. */
  ghost predicate QuietMove(s: NodeState, s': NodeState) {
    s'.log == s.log && s'.commitIndex == s.commitIndex && s'.saved == s.saved
  }

  ghost predicate WinMove(n: int, s: NodeState, s': NodeState) {
    && s.role == Candidate && s'.term == s.term
    && QuietMove(s, s')
    && (forall f | 0 <= f < n == |s'.matchIndex| == |s'.nextIndex| ::
          s'.matchIndex[f] == -1 && s'.nextIndex[f] == |s.log|)
  }

  ghost predicate LeadMove(n: int, i: int, s: NodeState, p: Option<Packet>, s': NodeState) {
    && s.role == Leader && s'.term == s.term
    && s.log <= s'.log
    && s.commitIndex <= s'.commitIndex
    && (s'.commitIndex == s.commitIndex ==> s'.saved == s.saved)
    && (s'.commitIndex > s.commitIndex ==>
          && s'.log == s.log
          && -1 <= s.commitIndex && s'.commitIndex < |s.log|
          && |s'.matchIndex| == n && |Matched(n, i, s'.matchIndex, s'.commitIndex)| > n / 2
          && s'.saved == s.saved + s.log[s.commitIndex + 1..s'.commitIndex + 1])
    && (forall f | 0 <= f < n == |s.matchIndex| == |s'.matchIndex| ::
          if AckFrom(p, f) then s'.matchIndex[f] == p.value.msg.newIndex - 1
          else s'.matchIndex[f] == s.matchIndex[f])
    && (forall f | 0 <= f < n == |s.nextIndex| == |s'.nextIndex| ::
          if AckFrom(p, f) then s'.nextIndex[f] == p.value.msg.newIndex
          else s'.nextIndex[f] <= s.nextIndex[f])
  }

  ghost predicate Moved(n: int, i: int, s: NodeState, p: Option<Packet>, s': NodeState) {
    && Shaped(n, i, s')
    && s.term <= s'.term
    && (s'.role == Candidate && s'.term > s.term ==> s'.term == s.term + 1)
    && (s'.role == Leader ==> s'.votedFor == s.votedFor)
    && (if Accepted(s, p) then AcceptMove(s, p.value, s')
        else if s'.role != Leader then QuietMove(s, s') && (s.role == Leader ==> s.term < s'.term)
        else WinMove(n, s, s') || (LeadMove(n, i, s, p, s') && (p.Some? ==> p.value.msg.term <= s.term)))
  }

  lemma {:induction false} AcceptMoves(s: NodeState, p: Packet, s': NodeState)
    requires Accepted(s, Some(p)) && DefinedAppend(AdoptTerm(s, p.msg.term), p.msg)
    requires s' == AcceptAppend(AdoptTerm(s, p.msg.term), p.msg).(granted := s'.granted, voteCount := s'.voteCount)
    ensures AcceptMove(s, p, s')
  {
  }

  lemma {:induction false} FollowerMoves(n: int, i: int, s: NodeState, p: Packet)
    requires Shaped(n, i, s) && Defined(n, i, s, p) && s.role == Follower
    ensures Moved(n, i, s, Some(p), Receive(n, i, s, p).node)
  {
    if Accepted(s, Some(p)) {
      AcceptMoves(s, p, Receive(n, i, s, p).node);
    }
  }

  lemma {:induction false} CandidateMoves(n: int, i: int, s: NodeState, p: Packet)
    requires Shaped(n, i, s) && Defined(n, i, s, p) && s.role == Candidate && !StepsDown(s, p)
    ensures Moved(n, i, s, Some(p), Receive(n, i, s, p).node)
  {
  }

  lemma {:induction false} AckMoves(n: int, i: int, s: NodeState, p: Packet)
    requires Shaped(n, i, s) && 0 <= p.src < n && DefinedAck(s, p)
    ensures var d := HandleAck(i, s, p).node;
            && d == s.(matchIndex := d.matchIndex, nextIndex := d.nextIndex)
            && |d.matchIndex| == n == |d.nextIndex|
            && (forall f | 0 <= f < n ::
                  if AckFrom(Some(p), f) then d.matchIndex[f] == p.msg.newIndex - 1
                  else d.matchIndex[f] == s.matchIndex[f])
            && (forall f | 0 <= f < n ::
                  if AckFrom(Some(p), f) then d.nextIndex[f] == p.msg.newIndex
                  else d.nextIndex[f] <= s.nextIndex[f])
  {
  }

  ghost predicate CommitMove(n: int, i: int, d: NodeState, s': NodeState)
    requires |d.matchIndex| == n
  {
    && s' == d.(commitIndex := s'.commitIndex, saved := s'.saved, replied := s'.replied)
    && d.commitIndex <= s'.commitIndex
    && (s'.commitIndex == d.commitIndex ==> s'.saved == d.saved)
    && (s'.commitIndex > d.commitIndex ==>
          && -1 <= d.commitIndex && s'.commitIndex < |d.log|
          && |Matched(n, i, d.matchIndex, s'.commitIndex)| > n / 2
          && s'.saved == d.saved + d.log[d.commitIndex + 1..s'.commitIndex + 1])
  }

  lemma {:induction false} CommitMoves(n: int, i: int, d: NodeState)
    requires Shaped(n, i, d) && DefinedCommit(n, i, d)
    ensures CommitMove(n, i, d, CommitLoop(n, i, d))
  {
    CommitTargetReached(n, i, d.matchIndex, d.commitIndex);
  }

  lemma {:induction false} LeaderMoves(n: int, i: int, s: NodeState, p: Packet)
    requires Shaped(n, i, s) && Defined(n, i, s, p) && s.role == Leader && !StepsDown(s, p)
    ensures Moved(n, i, s, Some(p), Receive(n, i, s, p).node)
  {
    AckMoves(n, i, s, p);
    CommitMoves(n, i, HandleAck(i, s, p).node);
    LeadMoves(n, i, s, p, HandleAck(i, s, p).node, Receive(n, i, s, p).node);
  }

  lemma {:induction false} LeadMoves(n: int, i: int, s: NodeState, p: Packet, d: NodeState, s': NodeState)
    requires Shaped(n, i, s) && s.role == Leader && p.msg.term <= s.term
    requires d == s.(matchIndex := d.matchIndex, nextIndex := d.nextIndex)
    requires |d.matchIndex| == n == |d.nextIndex|
    requires forall f | 0 <= f < n ::
               if AckFrom(Some(p), f) then d.matchIndex[f] == p.msg.newIndex - 1
               else d.matchIndex[f] == s.matchIndex[f]
    requires forall f | 0 <= f < n ::
               if AckFrom(Some(p), f) then d.nextIndex[f] == p.msg.newIndex
               else d.nextIndex[f] <= s.nextIndex[f]
    requires CommitMove(n, i, d, s')
    ensures Moved(n, i, s, Some(p), s')
  {
  }

  lemma {:induction false} ReceiveMoves(n: int, i: int, s: NodeState, p: Packet)
    requires Shaped(n, i, s) && Defined(n, i, s, p)
    ensures Moved(n, i, s, Some(p), Receive(n, i, s, p).node)
  {
    if StepsDown(s, p) {
    } else {
      match s.role {
        case Follower => FollowerMoves(n, i, s, p);
        case Candidate => CandidateMoves(n, i, s, p);
        case Leader => LeaderMoves(n, i, s, p);
      }
    }
  }

  lemma {:induction false} EffectMoves(n: int, c: Cluster, step: Step)
    requires Enabled(n, c, step)
    ensures Moved(n, Actor(step), Before(c, step), Handling(c, step), Effect(n, c, step).node)
  {
    var i := Actor(step);
    var s := Before(c, step);
    match step {
      case Deliver(p) => if !s.crashed { ReceiveMoves(n, i, s, p); }
      case Resume(_) => ReceiveMoves(n, i, s, c.nodes[i].queue[0]);
      case _ =>
    }
  }
}
