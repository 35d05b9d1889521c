/** Every move of a node keeps the marks in order, given FIFO and fresh acknowledgements at that node. */
module MarkStep {
  import opened Types
  import opened NodeSpec
  import opened History
  import opened BaseProof
  import opened BaseStep
  import opened Moves
  import opened Marks

  /** The situation before the move: everything in order for the node and the message it handles. */
  ghost predicate Ready(n: int, i: int, s: NodeState, p: Option<Packet>, h: History, a: Marks) {
    && HistoryOk(n, h) && NodeOk(n, i, s, h)
    && MarksOk(h, a) && NodeMarked(n, i, s, h, a)
    && (p.Some? ==> MessageOk(n, h, p.value.src, i, p.value.msg) && MessageMarked(h, a, p.value.src, i, p.value.msg))
  }

  /** The situation after it, as far as the base invariant tells. */
  ghost predicate Landed(n: int, i: int, h: History, s': NodeState, h': History) {
    HistoryOk(n, h') && Grows(h, h', i) && NodeOk(n, i, s', h')
  }

  ghost predicate MarksKept(n: int, i: int, s': NodeState, h': History, a: Marks, a': Marks) {
    && MarksOk(h', a')
    && NodeMarked(n, i, s', h', a')
    && Advances(a, a', Key(s'.term, i))
  }

  lemma {:induction false} OldMarksOk(h: History, h': History, a: Marks, a': Marks, new_: Key)
    requires MarksOk(h, a) && Extends(h, h') && Advances(a, a', new_)
    requires new_ in a' ==> MarkOk(h', a', new_)
    ensures MarksOk(h', a')
  {
    forall key | key in a' ensures MarkOk(h', a', key) {
      if key != new_ {
        assert MarkOk(h, a, key);
      }
    }
  }

  // ---------------------------------------------------------------- accepting an append

  /** The accepted log is the leader's as sent, at least as long as the log it was elected with. */
  lemma {:induction false} AcceptFacts(n: int, i: int, s: NodeState, p: Packet, s': NodeState, h: History)
    requires HistoryOk(n, h) && NodeOk(n, i, s, h) && MessageOk(n, h, p.src, i, p.msg)
    requires Accepted(s, Some(p)) && AcceptMove(s, p, s')
    ensures s.term <= s'.term && s'.term in h.lead && h.lead[s'.term].leader == p.src
    ensures h.lead[s'.term].elected <= s'.log <= h.lead[s'.term].log
    ensures SliceOk(h, p.msg)
  {
    var b := AdoptTerm(s, p.msg.term);
    AdoptOk(n, i, s, h, p.msg.term);
    AcceptedIsSlice(n, h, b, p.msg);
    var l := h.lead[p.msg.term];
    assert LeadOk(n, h, p.msg.term);
    assert s'.log == l.log[..Total(p.msg)];
  }

  /** Whatever was accepted before, the leader's log keeps it, or that leader is the one that lacked it. */
  lemma {:induction false} AcceptKeeps(h: History, a: Marks, i: int, t: int, s': NodeState)
    requires MarksOk(h, a) && t in h.lead && s'.term == t
    requires h.lead[t].elected <= s'.log <= h.lead[t].log
    requires forall key | key in a && key.node == i :: key.term <= t
    requires Key(t, i) in a ==> a[Key(t, i)].length <= |s'.log|
    ensures KeepsMarks(h, a, i, t + 1, s'.log, t)
  {
    forall u, k | Key(u, i) in a && u < t + 1 && 0 < k <= a[Key(u, i)].length
      ensures Keeps(h, u, k, s'.log, t)
    {
      assert MarkOk(h, a, Key(u, i));
      if u == t {
        assert Head(h, t, k) == h.lead[t].log[..k];
      } else if Head(h, u, k) <= h.lead[t].elected {
        PrefixTrans(Head(h, u, k), h.lead[t].elected, s'.log);
      } else {
        assert Breaks(h, u, k, t);
      }
    }
  }

  /** The new mark, from the facts about the accepted log alone. */
  lemma {:induction false} MarkAccepted(n: int, i: int, src: int, s': NodeState, h: History, a: Marks)
    requires MarksOk(h, a) && src != i && s'.role != Leader
    requires s'.term in h.lead && h.lead[s'.term].leader == src
    requires h.lead[s'.term].elected <= s'.log <= h.lead[s'.term].log
    requires Key(s'.term, src) in a && s'.commitIndex <= a[Key(s'.term, src)].commit
    requires AheadOf(a, s'.term, i, |s'.log|, s'.commitIndex)
    requires forall key | key in a && key.node == i :: key.term <= s'.term
    ensures MarksKept(n, i, s', h, a, a[Key(s'.term, i) := Mark(|s'.log|, s'.commitIndex)])
  {
    var key := Key(s'.term, i);
    var a' := a[key := Mark(|s'.log|, s'.commitIndex)];
    assert Advances(a, a', key);
    assert MarkOk(h, a', key);
    OldMarksOk(h, h, a, a', key);
    AcceptKeeps(h, a', i, s'.term, s');
  }

  lemma {:induction false} MarkedAppend(h: History, a: Marks, src: int, dst: int, m: Message)
    requires m.AppendEntries? && MessageMarked(h, a, src, dst, m)
    ensures Key(m.term, src) in a && m.leaderCommit <= a[Key(m.term, src)].commit
    ensures AheadOf(a, m.term, dst, Total(m), m.leaderCommit)
  {
  }

  lemma {:induction false} AcceptMarked(n: int, i: int, s: NodeState, p: Packet, s': NodeState, h: History, a: Marks)
    requires MarksOk(h, a) && NodeMarked(n, i, s, h, a) && MessageMarked(h, a, p.src, i, p.msg) && p.src != i
    requires p.msg.AppendEntries? && s'.role == Follower && s'.term == p.msg.term && s.term <= s'.term
    requires |s'.log| == Total(p.msg) && s'.commitIndex == p.msg.leaderCommit
    requires s'.term in h.lead && h.lead[s'.term].leader == p.src
    requires h.lead[s'.term].elected <= s'.log <= h.lead[s'.term].log
    ensures MarksKept(n, i, s', h, a, a[Key(s'.term, i) := Mark(|s'.log|, s'.commitIndex)])
  {
    MarkedAppend(h, a, p.src, i, p.msg);
    MarkAccepted(n, i, p.src, s', h, a);
  }

  lemma {:induction false} AcceptSilent(n: int, i: int, s: NodeState, p: Packet, s': NodeState, h: History)
    requires Accepted(s, Some(p)) && AcceptMove(s, p, s')
    ensures Observe(n, i, s, s', h) == h
    ensures forall a: Marks :: Remember(i, s, Some(p), s', a) == a[Key(s'.term, i) := Mark(|s'.log|, s'.commitIndex)]
  {
  }

  lemma {:induction false} AcceptBranch(n: int, i: int, s: NodeState, p: Packet, s': NodeState, h: History, a: Marks)
    requires Ready(n, i, s, Some(p), h, a)
    requires Accepted(s, Some(p)) && AcceptMove(s, p, s')
    ensures MarksKept(n, i, s', h, a, a[Key(s'.term, i) := Mark(|s'.log|, s'.commitIndex)])
  {
    AcceptFacts(n, i, s, p, s', h);
    AcceptMarked(n, i, s, p, s', h, a);
  }

  // ---------------------------------------------------------------- not ending as leader

  lemma {:induction false} QuietMarked(n: int, i: int, s: NodeState, p: Option<Packet>, s': NodeState, h: History,
                                       h': History, a: Marks)
    requires Ready(n, i, s, p, h, a) && Grows(h, h', i)
    requires s'.role != Leader && QuietMove(s, s') && !Accepted(s, p) && s.term <= s'.term
    ensures MarksKept(n, i, s', h', a, Remember(i, s, p, s', a))
  {
    var key := Key(s'.term, i);
    forall o | o in a ensures a[o].length >= 0 {
      assert MarkOk(h, a, o);
    }
    assert Advances(a, a, key);
    forall o | o in a ensures MarkOk(h', a, o) {
      assert MarkOk(h, a, o);
    }
    forall t, k | Key(t, i) in a && t < s'.term + 1 && 0 < k <= a[Key(t, i)].length
      ensures Keeps(h', t, k, s'.log, s'.term)
    {
      assert MarkOk(h, a, Key(t, i));
      assert Keeps(h, t, k, s.log, s.term);
      KeepsExtends(h, h', t, k, s.log, s.term, s'.log, s'.term);
    }
    assert KeepsMarks(h', a, i, s'.term + 1, s'.log, s'.term);
  }

  // ---------------------------------------------------------------- ending as leader

  /** A leader's own mark is its log; what it accepted in earlier terms is kept as before. */
  lemma {:induction false} OwnMark(n: int, i: int, s: NodeState, s': NodeState, h: History, h': History, a: Marks,
                                   a': Marks)
    requires MarksOk(h, a) && NodeMarked(n, i, s, h, a) && Grows(h, h', i) && HistoryOk(n, h')
    requires s'.term == s.term && s.log <= s'.log && s'.role == Leader && LeaderOk(i, s', h')
    requires a' == a[Key(s'.term, i) := Mark(|s'.log|, s'.commitIndex)]
    requires AheadOf(a, s'.term, i, |s'.log|, s'.commitIndex)
    ensures MarksOk(h', a') && Advances(a, a', Key(s'.term, i))
    ensures KeepsMarks(h', a', i, s'.term + 1, s'.log, s'.term)
  {
    var key := Key(s'.term, i);
    assert Advances(a, a', key);
    assert LeadOk(n, h', s'.term);
    assert MarkOk(h', a', key);
    OldMarksOk(h, h', a, a', key);
    forall t, k | Key(t, i) in a' && t < s'.term + 1 && 0 < k <= a'[Key(t, i)].length
      ensures Keeps(h', t, k, s'.log, s'.term)
    {
      if t == s'.term {
        assert Head(h', t, k) == s'.log[..k];
      } else {
        assert MarkOk(h, a, Key(t, i));
        assert Keeps(h, t, k, s.log, s.term);
        KeepsExtends(h, h', t, k, s.log, s.term, s'.log, s'.term);
      }
    }
  }

  lemma {:induction false} NotYetLed(n: int, i: int, s: NodeState, s': NodeState, h: History, h': History)
    requires NodeOk(n, i, s, h) && Landed(n, i, h, s', h')
    requires s.role == Candidate && s'.role == Leader && s'.term == s.term
    ensures s.term !in h.lead
  {
  }

  lemma {:induction false} WinMarked(n: int, i: int, s: NodeState, p: Option<Packet>, s': NodeState, h: History,
                                     h': History, a: Marks)
    requires Ready(n, i, s, p, h, a) && Landed(n, i, h, s', h')
    requires s'.role == Leader && WinMove(n, s, s') && !Accepted(s, p)
    requires s'.term in h'.lead && h'.lead[s'.term].elected == s'.log
    ensures MarksKept(n, i, s', h', a, Remember(i, s, p, s', a))
  {
    NotYetLed(n, i, s, s', h, h');
    var a' := Remember(i, s, p, s', a);
    forall key | key in a ensures key.term in h.lead {
      assert MarkOk(h, a, key);
    }
    OwnMark(n, i, s, s', h, h', a, a');
    forall v ensures Length(a', s'.term, v) >= 0 {
      if Key(s'.term, v) in a' {
        assert MarkOk(h', a', Key(s'.term, v));
      }
    }
    assert LeaderMarked(n, i, s', h', a');
  }

  lemma {:induction false} LeadMarked(n: int, i: int, s: NodeState, p: Option<Packet>, s': NodeState, h: History,
                                      h': History, a: Marks)
    requires Ready(n, i, s, p, h, a) && Landed(n, i, h, s', h')
    requires s'.role == Leader && LeadMove(n, i, s, p, s') && !Accepted(s, p)
    requires p.Some? && p.value.msg.AppendEntriesResponse? && p.value.msg.success ==> p.value.msg.term == s.term
    ensures MarksKept(n, i, s', h', a, Remember(i, s, p, s', a))
  {
    var a' := Remember(i, s, p, s', a);
    OwnMark(n, i, s, s', h, h', a, a');
    forall v ensures Length(a, s.term, v) <= Length(a', s.term, v) {
      LengthAdvances(a, a', Key(s'.term, i), s.term, v);
    }
    assert LeaderMarked(n, i, s', h', a');
  }

  // ---------------------------------------------------------------- any move

  lemma {:induction false} MovedMarked(n: int, i: int, s: NodeState, p: Option<Packet>, s': NodeState, h: History,
                                       h': History, a: Marks)
    requires Ready(n, i, s, p, h, a) && Landed(n, i, h, s', h') && Moved(n, i, s, p, s')
    requires h' == Observe(n, i, s, s', h)
    requires s.role == Leader && p.Some? && p.value.msg.AppendEntriesResponse? && p.value.msg.success
             ==> p.value.msg.term >= s.term
    ensures MarksKept(n, i, s', h', a, Remember(i, s, p, s', a))
  {
    if Accepted(s, p) {
      AcceptSilent(n, i, s, p.value, s', h);
      AcceptBranch(n, i, s, p.value, s', h, a);
    } else if s'.role != Leader {
      QuietMarked(n, i, s, p, s', h, h', a);
    } else if WinMove(n, s, s') {
      assert h'.lead[s'.term].elected == s'.log;
      WinMarked(n, i, s, p, s', h, h', a);
    } else {
      LeadMarked(n, i, s, p, s', h, h', a);
    }
  }
}
