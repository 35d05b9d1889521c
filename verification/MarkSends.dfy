/** Ballots and messages keep to the marks when a node moves. */
module MarkSends {
  import opened Types
  import opened NodeSpec
  import opened History
  import opened Sends
  import opened Shape
  import opened Moves
  import opened Marks
  import opened MarkStep

  // ---------------------------------------------------------------- ballots

  lemma {:induction false} OldBallotMarked(n: int, i: int, s: NodeState, s': NodeState, h: History, h': History,
                                           a: Marks, a': Marks, key: Key)
    requires VoteOk(i, s, h) && MarksOk(h, a) && Grows(h, h', i) && Advances(a, a', Key(s'.term, i))
    requires s.term <= s'.term && key in h.ballots && BallotMarked(h, a, key)
    ensures BallotMarked(h', a', key)
  {
    if key.term in h'.lead ==> key.node in h'.lead[key.term].quorum {
      var log := h.ballots[key].log;
      KeepsMarksExtends(h, h', a, a', Key(s'.term, i), key.node, key.term, log, key.term - 1, log, key.term - 1);
    }
  }

  /** A vote in the present term counts only if that term has no leader yet. */
  lemma {:induction false} NoLeaderBeforeVote(n: int, i: int, s: NodeState, h: History)
    requires HistoryOk(n, h) && VoteOk(i, s, h) && s.votedFor.None?
    requires s.term in h.lead ==> i in h.lead[s.term].quorum
    ensures s.term !in h.lead
  {
    forall t | t in h.lead ensures i in h.lead[t].quorum ==> Key(t, i) in h.ballots {
      assert LeadOk(n, h, t);
    }
  }

  lemma {:induction false} KeepsBelow(h: History, t: int, k: int, log: seq<Entry>, hi: int)
    requires Keeps(h, t, k, log, hi) && hi !in h.lead
    ensures Keeps(h, t, k, log, hi - 1)
  {
    if !(Head(h, t, k) <= log) {
      var u :| t < u <= hi && Breaks(h, t, k, u);
      assert t < u <= hi - 1;
    }
  }

  /** The record of a vote cast now: the voter's log still keeps what the node has kept. */
  lemma {:induction false} NewBallotMarked(n: int, i: int, s: NodeState, h: History, h': History, a: Marks, t: int)
    requires HistoryOk(n, h) && VoteOk(i, s, h) && NodeMarked(n, i, s, h, a) && MarksOk(h, a)
    requires Grows(h, h', i) && h'.lead == h.lead
    requires t > s.term || (t == s.term && s.votedFor.None?)
    requires Key(t, i) in h'.ballots && h'.ballots[Key(t, i)].log == s.log
    ensures BallotMarked(h', a, Key(t, i))
  {
    if t in h.lead ==> i in h.lead[t].quorum {
      if t == s.term {
        NoLeaderBeforeVote(n, i, s, h);
      }
      var hi := t - 1;
      forall u, k {:trigger Keeps(h', u, k, s.log, hi)} | Key(u, i) in a && u < t && 0 < k <= a[Key(u, i)].length
        ensures Keeps(h', u, k, s.log, hi)
      {
        assert MarkOk(h, a, Key(u, i));
        assert Keeps(h, u, k, s.log, s.term);
        if t == s.term {
          KeepsBelow(h, u, k, s.log, s.term);
          KeepsExtends(h, h', u, k, s.log, hi, s.log, hi);
        } else {
          KeepsExtends(h, h', u, k, s.log, s.term, s.log, hi);
        }
      }
      assert KeepsMarks(h', a, i, t, s.log, hi);
    }
  }

  /** If the step left a new ballot, it is the node's own, of its new term, cast with an unchanged log. */
  lemma {:induction false} NewBallotFacts(n: int, i: int, s: NodeState, p: Option<Packet>, s': NodeState, h: History,
                                        key: Key)
    requires Moved(n, i, s, p, s')
    requires key in Observe(n, i, s, s', h).ballots && key !in h.ballots
    ensures key == Key(s'.term, i) && Observe(n, i, s, s', h).lead == h.lead
    ensures s'.term > s.term || (s'.term == s.term && s.votedFor.None?)
    ensures s'.log == s.log && Observe(n, i, s, s', h).ballots[key].log == s.log
    ensures s'.role != Leader && !Accepted(s, p)
  {
    if Accepted(s, p) {
      AcceptSilent(n, i, s, p.value, s', h);
    }
  }

  lemma {:induction false} BallotsMoved(n: int, i: int, s: NodeState, p: Option<Packet>, s': NodeState,
                                        h: History, h': History, a: Marks, a': Marks)
    requires Ready(n, i, s, p, h, a) && Grows(h, h', i) && Moved(n, i, s, p, s') && BallotsMarked(h, a)
    requires h' == Observe(n, i, s, s', h) && a' == Remember(i, s, p, s', a) && Advances(a, a', Key(s'.term, i))
    ensures BallotsMarked(h', a')
  {
    forall key | key in h'.ballots ensures BallotMarked(h', a', key) {
      if key in h.ballots {
        assert BallotMarked(h, a, key);
        OldBallotMarked(n, i, s, s', h, h', a, a', key);
      } else {
        NewBallotFacts(n, i, s, p, s', h, key);
        NewBallotMarked(n, i, s, h, h', a, s'.term);
      }
    }
  }

  // ---------------------------------------------------------------- messages sent

  /** No other node's mark of the leader's term is ahead of what the leader sends. */
  lemma {:induction false} OthersBehind(n: int, i: int, s: NodeState, s': NodeState, h: History, h': History,
                                        a: Marks, dst: int)
    requires NodeOk(n, i, s, h) && NodeMarked(n, i, s, h, a) && MarksOk(h, a) && Landed(n, i, h, s', h')
    requires s'.role == Leader && s'.term == s.term && s.log <= s'.log && (s.role == Leader || s.role == Candidate)
    ensures AheadOf(a, s'.term, dst, |s'.log|, s.commitIndex)
  {
    if s.role == Candidate {
      NotYetLed(n, i, s, s', h, h');
    }
    forall key | key in a && key.term == s.term
      ensures s.role == Leader && a[key].length <= |s.log| && a[key].commit <= s.commitIndex
    {
      assert MarkOk(h, a, key);
    }
  }

  lemma {:induction false} SentMarked(n: int, i: int, s: NodeState, s': NodeState, h': History, a: Marks, a': Marks,
                                      snd: Send)
    requires SentAppend(n, i, s.commitIndex, s', snd) && s.commitIndex <= s'.commitIndex
    requires |s'.matchIndex| == n && LeaderMarked(n, i, s', h', a')
    requires Advances(a, a', Key(s'.term, i)) && Total(snd.msg) == |s'.log|
    requires AheadOf(a, s'.term, snd.dst, |s'.log|, s.commitIndex)
    ensures MessageMarked(h', a', i, snd.dst, snd.msg)
  {
    assert snd.msg.term == s'.term;
  }

  /** Messages of one sender to one receiver, the earlier first. */
  predicate InOrder(m: Message, m': Message) {
    && (m.AppendEntries? && m'.AppendEntries? && m.term == m'.term ==>
          Total(m) <= Total(m') && m.leaderCommit <= m'.leaderCommit)
    && (m.AppendEntriesResponse? && m'.AppendEntriesResponse? && m.success && m'.success && m.term == m'.term ==>
          m.newIndex <= m'.newIndex)
  }

  /** A new append is no shorter and commits no less than those its sender sent before. */
  lemma {:induction false} AppendAfter(n: int, i: int, s: NodeState, s': NodeState, h: History, h': History, a: Marks,
                                       dst: int, m: Message, snd: Send)
    requires NodeOk(n, i, s, h) && NodeMarked(n, i, s, h, a) && MarksOk(h, a) && Landed(n, i, h, s', h')
    requires s'.role == Leader && s'.term == s.term && s.log <= s'.log && (s.role == Leader || s.role == Candidate)
    requires SentAppend(n, i, s.commitIndex, s', snd) && Total(snd.msg) == |s'.log|
    requires MessageMarked(h, a, i, dst, m) && MessageInside(h, m)
    ensures InOrder(m, snd.msg)
  {
    if m.AppendEntries? && m.term == s'.term {
      if s.role == Candidate {
        NotYetLed(n, i, s, s', h, h');
      }
      assert h.lead[m.term].log == s.log;
    }
  }

  /** A new success response reports no less than those its sender sent before in the term. */
  lemma {:induction false} AckAfter(h: History, a: Marks, i: int, p: Packet, dst: int, m: Message, snd: Send)
    requires p.msg.AppendEntries? && MessageMarked(h, a, p.src, i, p.msg)
    requires snd == Send(p.src, AppendEntriesResponse(p.msg.term, true, Total(p.msg)))
    requires MessageMarked(h, a, i, dst, m)
    ensures InOrder(m, snd.msg)
  {
  }
}
