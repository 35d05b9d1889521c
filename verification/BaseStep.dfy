/** Every input of a node keeps the base invariant, given that counted votes are fresh. */
module BaseStep {
  import opened Types
  import opened NodeSpec
  import opened History
  import opened BaseProof

  /** Node i went from s to o.node: history, node and messages are still in order. */
  ghost predicate Kept(n: int, i: int, s: NodeState, o: Outcome, h: History) {
    var h' := Observe(n, i, s, o.node, h);
    && HistoryOk(n, h')
    && Grows(h, h', i)
    && NodeOk(n, i, o.node, h')
    && (forall snd | snd in o.sends :: MessageOk(n, h', i, snd.dst, snd.msg))
  }

  /** An input that leaves no new record. */
  lemma {:induction false} Unrecorded(n: int, i: int, s: NodeState, o: Outcome, h: History)
    requires HistoryOk(n, h) && NodeOk(n, i, o.node, h) && Observe(n, i, s, o.node, h) == h
    requires forall snd | snd in o.sends :: MessageOk(n, h, i, snd.dst, snd.msg)
    ensures Kept(n, i, s, o, h)
  {
  }

  // ---------------------------------------------------------------- sending

  lemma {:induction false} AppendForSlice(n: int, i: int, s: NodeState, h: History, dst: int)
    requires HistoryOk(n, h) && LeaderOk(i, s, h) && s.role == Leader
    requires 0 <= dst < |s.nextIndex| && 0 <= s.nextIndex[dst] <= |s.log|
    ensures Total(AppendFor(i, s, dst)) == |s.log| && SliceOk(h, AppendFor(i, s, dst))
  {
    assert LeadOk(n, h, s.term);
    hide LeadOk, HistoryOk;
    LeaderSlice(i, s, h, dst);
  }

  lemma {:induction false} LeaderSlice(i: int, s: NodeState, h: History, dst: int)
    requires s.term in h.lead && h.lead[s.term].log == s.log && |h.lead[s.term].elected| <= |s.log|
    requires 0 <= dst < |s.nextIndex| && 0 <= s.nextIndex[dst] <= |s.log|
    ensures Total(AppendFor(i, s, dst)) == |s.log| && SliceOk(h, AppendFor(i, s, dst))
  {
  }

  lemma {:induction false} AppendForBeyond(i: int, s: NodeState, dst: int)
    requires 0 <= dst < |s.nextIndex| && |s.log| < s.nextIndex[dst]
    ensures BeyondLog(AppendFor(i, s, dst))
  {
  }

  lemma {:induction false} AppendForOk(n: int, i: int, s: NodeState, h: History, dst: int)
    requires HistoryOk(n, h) && LeaderOk(i, s, h) && s.role == Leader
    requires 0 <= i < n && 0 <= dst < n == |s.nextIndex| && dst != i && s.nextIndex[dst] >= 0
    ensures MessageOk(n, h, i, dst, AppendFor(i, s, dst))
  {
    var m := AppendFor(i, s, dst);
    if s.nextIndex[dst] <= |s.log| {
      AppendForSlice(n, i, s, h, dst);
    } else {
      AppendForBeyond(i, s, dst);
    }
    hide BeyondLog, SliceOk, HistoryOk;
  }

  lemma {:induction false} UpdatesAre(n: int, i: int, s: NodeState, d: int)
    requires 0 <= d <= n == |s.nextIndex|
    requires forall f | 0 <= f < n :: s.nextIndex[f] >= 0
    ensures forall snd | snd in Updates(i, s, d) ::
              0 <= snd.dst < d && snd.dst != i && snd.msg == AppendFor(i, s, snd.dst)
  {
    if d > 0 {
      UpdatesAre(n, i, s, d - 1);
      var rest := if d - 1 == i then [] else [Send(d - 1, AppendFor(i, s, d - 1))];
      assert Updates(i, s, d) == Updates(i, s, d - 1) + rest;
      forall snd | snd in Updates(i, s, d)
        ensures 0 <= snd.dst < d && snd.dst != i && snd.msg == AppendFor(i, s, snd.dst) {
        assert snd in Updates(i, s, d - 1) || snd in rest;
      }
    }
  }

  lemma {:induction false} UpdatesOk(n: int, i: int, s: NodeState, h: History)
    requires HistoryOk(n, h) && LeaderOk(i, s, h) && s.role == Leader
    requires 0 <= i < n == |s.nextIndex|
    requires forall f | 0 <= f < n :: s.nextIndex[f] >= 0
    ensures forall snd | snd in Updates(i, s, n) :: MessageOk(n, h, i, snd.dst, snd.msg)
  {
    UpdatesAre(n, i, s, n);
    forall snd | snd in Updates(i, s, n) ensures MessageOk(n, h, i, snd.dst, snd.msg) {
      AppendForOk(n, i, s, h, snd.dst);
    }
  }

  lemma {:induction false} VoteRequestsOk(n: int, i: int, s: NodeState, h: History, d: int)
    requires 0 <= i < n && d <= n
    requires Key(s.term, i) in h.bids && h.bids[Key(s.term, i)] == s.log
    ensures forall snd | snd in VoteRequests(i, s, d) ::
              snd.msg.RequestVote? && snd.dst != i && MessageOk(n, h, i, snd.dst, snd.msg)
  {
    if d > 0 {
      VoteRequestsOk(n, i, s, h, d - 1);
    }
  }

  // ---------------------------------------------------------------- entering cycles

  lemma {:induction false} GrantedNone(n: nat)
    ensures GrantedSet(seq(n, _ => false)) == {}
  {
  }

  lemma {:induction false} GrantedOneMore(g: seq<bool>, v: int)
    requires 0 <= v < |g| && !g[v]
    ensures GrantedSet(g[v := true]) == GrantedSet(g) + {v}
    ensures |GrantedSet(g[v := true])| == |GrantedSet(g)| + 1
  {
    assert GrantedSet(g[v := true]) == GrantedSet(g) + {v};
  }

  /** A node that starts or repeats an election; s0 is the node before the input. */
  lemma {:induction false} CampaignKept(n: int, i: int, s0: NodeState, s: NodeState, h: History)
    requires HistoryOk(n, h) && NodeOk(n, i, s0, h)
    requires s == s0.(role := Candidate, crashed := s.crashed)
    ensures Kept(n, i, s0, Enter(n, i, s), h)
  {
    var o := Enter(n, i, s);
    var c := o.node;
    assert Key(c.term, i) !in h.ballots && Key(c.term, i) !in h.bids;
    AddBid(n, h, i, c.term, c.log);
    var h' := Observe(n, i, s0, c, h);
    CoveredExtends(h, h', c.log);
    GrantedNone(n);
    assert VoteOk(i, c, h');
    assert c.term in h.lead ==> h.lead[c.term].leader != i by {
      if c.term in h.lead {
        assert LeadOk(n, h, c.term);
      }
    }
    assert CandidateOk(i, c, h');
    VoteRequestsOk(n, i, c, h', n);
    forall p | p in c.queue ensures p.dst == i && MessageOk(n, h', p.src, i, p.msg) {
      MessageExtends(n, h, h', p.src, i, p.msg);
    }
  }

  lemma {:induction false} HeartbeatKept(n: int, i: int, s0: NodeState, s: NodeState, h: History)
    requires HistoryOk(n, h) && NodeOk(n, i, s0, h) && s0.role == Leader
    requires s == s0.(crashed := s.crashed)
    ensures Kept(n, i, s0, Enter(n, i, s), h)
  {
    UpdatesOk(n, i, FreshCycle(n, s), h);
    Unrecorded(n, i, s0, Enter(n, i, s), h);
  }

  // ---------------------------------------------------------------- follower

  lemma {:induction false} AdoptOk(n: int, i: int, s: NodeState, h: History, t: int)
    requires NodeOk(n, i, s, h) && s.role == Follower
    ensures NodeOk(n, i, AdoptTerm(s, t), h)
  {
  }

  lemma {:induction false} FollowerEntered(n: int, i: int, s: NodeState, h: History)
    requires NodeOk(n, i, s, h) && s.role == Follower
    ensures NodeOk(n, i, FreshCycle(n, s), h)
  {
  }

  /** A node that turns follower and puts the message back, in its own term or in a later one. */
  lemma {:induction false} DemotedKept(n: int, i: int, s: NodeState, h: History, p: Packet, s': NodeState)
    requires HistoryOk(n, h) && NodeOk(n, i, s, h) && p.dst == i && MessageOk(n, h, p.src, i, p.msg)
    requires s'.role == Follower && Shaped(n, i, s') && s'.nextIndex == s.nextIndex
    requires s'.log == s.log && s'.queue == s.queue + [p]
    requires if s'.term == s.term then s'.votedFor == s.votedFor else s'.term > s.term && s'.votedFor.None?
    ensures Kept(n, i, s, Outcome(s', []), h)
  {
    assert VoteOk(i, s', h);
    assert LogOk(s', h);
    Unrecorded(n, i, s, Outcome(s', []), h);
  }

  lemma {:induction false} StepDownKept(n: int, i: int, s: NodeState, h: History, p: Packet)
    requires HistoryOk(n, h) && NodeOk(n, i, s, h) && p.dst == i && MessageOk(n, h, p.src, i, p.msg)
    requires StepsDown(s, p)
    ensures Kept(n, i, s, Receive(n, i, s, p), h)
  {
    DemotedKept(n, i, s, h, p, Receive(n, i, s, p).node);
  }

  lemma {:induction false} GrantKept(n: int, i: int, s: NodeState, h: History, cand: int)
    requires HistoryOk(n, h) && NodeOk(n, i, s, h) && s.role == Follower && s.votedFor.None?
    requires Key(s.term, cand) in h.bids && UpToDate(h.bids[Key(s.term, cand)], s.log)
    requires 0 <= cand < n && cand != i
    ensures Kept(n, i, s, Outcome(s.(votedFor := Some(cand)), [Send(cand, RequestVoteResponse(s.term, true))]), h)
  {
    var s' := s.(votedFor := Some(cand));
    AddBallot(n, h, i, s.term, cand, s.log);
    var h' := Observe(n, i, s, s', h);
    CoveredExtends(h, h', s.log);
    assert VoteOk(i, s', h');
    forall q | q in s.queue ensures q.dst == i && MessageOk(n, h', q.src, i, q.msg) {
      MessageExtends(n, h, h', q.src, i, q.msg);
    }
  }

  lemma {:induction false} RequestVoteKept(n: int, i: int, s: NodeState, h: History, p: Packet)
    requires HistoryOk(n, h) && NodeOk(n, i, s, h) && MessageOk(n, h, p.src, i, p.msg)
    requires s.role == Follower && p.msg.RequestVote? && p.msg.term <= s.term
    ensures Kept(n, i, s, HandleRequestVote(s, p), h)
  {
    var o := HandleRequestVote(s, p);
    if o.node != s {
      GrantKept(n, i, s, h, p.src);
    } else {
      Unrecorded(n, i, s, o, h);
    }
  }

  lemma {:induction false} JoinSlices<T>(log: seq<T>, l: seq<T>, mid: int, es: seq<T>)
    requires 0 <= mid && mid + |es| <= |l| && mid <= |log| && log[..mid] == l[..mid]
    requires forall x | 0 <= x < |es| :: es[x] == l[mid + x]
    ensures log[..mid] + es == l[..mid + |es|]
  {
    assert es == l[mid..mid + |es|];
  }

  lemma {:induction false} CoveredAgree(h: History, a: seq<Entry>, b: seq<Entry>, x: int)
    requires Covered(h, a) && Covered(h, b) && 0 <= x < |a| && x < |b| && a[x].term == b[x].term
    ensures a[..x + 1] == b[..x + 1]
  {
    assert CoveredAt(h, a, x) && CoveredAt(h, b, x);
  }

  /** The follower's whole log becomes the leader's log as it was when the append was sent. */
  lemma {:induction false} AcceptedIsSlice(n: int, h: History, s: NodeState, m: Message)
    requires HistoryOk(n, h) && LogOk(s, h) && Accepts(s, m)
    requires m.term in h.lead && (SliceOk(h, m) || BeyondLog(m))
    ensures SliceOk(h, m)
    ensures AcceptedLog(s, m) == h.lead[m.term].log[..Total(m)]
  {
    var l := h.lead[m.term].log;
    var prev := m.prevLogIndex;
    assert LeadOk(n, h, m.term);
    hide HistoryOk, LeadOk;
    if prev >= 0 {
      assert !BeyondLog(m);
      CoveredAgree(h, s.log, l, prev);
    }
    JoinSlices(s.log, l, prev + 1, m.entries);
  }

  lemma {:induction false} AcceptedLogOk(n: int, i: int, s: NodeState, h: History, m: Message)
    requires HistoryOk(n, h) && LogOk(s, h) && Accepts(s, m) && m.term == s.term
    requires m.term in h.lead && (SliceOk(h, m) || BeyondLog(m))
    ensures Covered(h, AcceptedLog(s, m)) && Numbered(AcceptedLog(s, m), s.term)
  {
    AcceptedIsSlice(n, h, s, m);
    assert LeadOk(n, h, m.term);
    CoveredPrefix(h, AcceptedLog(s, m), h.lead[m.term].log);
  }

  lemma {:induction false} AppendOk(n: int, i: int, s: NodeState, h: History, p: Packet)
    requires HistoryOk(n, h) && NodeOk(n, i, s, h) && MessageOk(n, h, p.src, i, p.msg)
    requires s.role == Follower && p.msg.term <= s.term
    ensures p.msg.AppendEntries? && DefinedAppend(s, p.msg) ==> NodeOk(n, i, HandleAppendEntries(s, p).node, h)
  {
    if p.msg.AppendEntries? && DefinedAppend(s, p.msg) && Accepts(s, p.msg) {
      AcceptedLogOk(n, i, s, h, p.msg);
      assert LogOk(AcceptAppend(s, p.msg), h);
    }
  }

  lemma {:induction false} AppendReplyOk(n: int, i: int, s: NodeState, h: History, p: Packet)
    requires HistoryOk(n, h) && LogOk(s, h) && MessageOk(n, h, p.src, i, p.msg)
    requires p.msg.term <= s.term
    ensures p.msg.AppendEntries? && DefinedAppend(s, p.msg) ==>
              forall snd | snd in HandleAppendEntries(s, p).sends :: MessageOk(n, h, i, snd.dst, snd.msg)
  {
    if p.msg.AppendEntries? && DefinedAppend(s, p.msg) && Accepts(s, p.msg) {
      AcceptedIsSlice(n, h, s, p.msg);
    }
  }

  lemma {:induction false} FollowerAppendKept(n: int, i: int, s: NodeState, h: History, p: Packet)
    requires HistoryOk(n, h) && NodeOk(n, i, s, h) && MessageOk(n, h, p.src, i, p.msg)
    requires s.role == Follower && Defined(n, i, s, p) && p.msg.AppendEntries?
    ensures Kept(n, i, s, Receive(n, i, s, p), h)
  {
    var a := AdoptTerm(s, p.msg.term);
    AdoptOk(n, i, s, h, p.msg.term);
    AppendOk(n, i, a, h, p);
    AppendReplyOk(n, i, a, h, p);
    var b := HandleAppendEntries(a, p).node;
    FollowerEntered(n, i, b, h);
    Unrecorded(n, i, s, Receive(n, i, s, p), h);
  }

  lemma {:induction false} FollowerVoteKept(n: int, i: int, s: NodeState, h: History, p: Packet)
    requires HistoryOk(n, h) && NodeOk(n, i, s, h) && MessageOk(n, h, p.src, i, p.msg)
    requires s.role == Follower && Defined(n, i, s, p) && p.msg.RequestVote?
    ensures Kept(n, i, s, Receive(n, i, s, p), h)
  {
    var a := AdoptTerm(s, p.msg.term);
    AdoptOk(n, i, s, h, p.msg.term);
    RequestVoteKept(n, i, a, h, p);
    var b := HandleRequestVote(a, p).node;
    FollowerEntered(n, i, b, Observe(n, i, a, b, h));
  }

  lemma {:induction false} FollowerKept(n: int, i: int, s: NodeState, h: History, p: Packet)
    requires HistoryOk(n, h) && NodeOk(n, i, s, h) && MessageOk(n, h, p.src, i, p.msg)
    requires s.role == Follower && Defined(n, i, s, p)
    ensures Kept(n, i, s, Receive(n, i, s, p), h)
  {
    match p.msg {
      case RequestVote(_, _, _, _) => FollowerVoteKept(n, i, s, h, p);
      case AppendEntries(_, _, _, _, _, _) => FollowerAppendKept(n, i, s, h, p);
      case _ =>
        AdoptOk(n, i, s, h, p.msg.term);
        Unrecorded(n, i, s, Receive(n, i, s, p), h);
    }
  }

  // ---------------------------------------------------------------- candidate

  function Ranks(n: int): (r: set<int>)
    ensures forall x :: x in r <==> 0 <= x < n
    ensures n >= 0 ==> |r| == n
  {
    if n <= 0 then {} else Ranks(n - 1) + {n - 1}
  }

  lemma {:induction false} QuorumsMeet(n: int, a: set<int>, b: set<int>) returns (v: int)
    requires n >= 0 && IsQuorum(n, a) && IsQuorum(n, b)
    ensures v in a && v in b
  {
    SubsetSize(a + b, Ranks(n));
    assert |a + b| + |a * b| == |a| + |b|;
    v :| v in a * b;
  }

  lemma {:induction false} SubsetSize<T>(a: set<T>, b: set<T>)
    requires a <= b
    ensures |a| <= |b|
  {
    assert b == a + (b - a);
  }

  /** The votes counted so far, with the candidate's own, are recorded ballots. */
  lemma {:induction false} VotersAreQuorum(n: int, i: int, s: NodeState, h: History)
    requires NodeOk(n, i, s, h) && s.role == Candidate && s.voteCount > n / 2
    ensures IsQuorum(n, Voters(n, h, s.term, i))
  {
    var counted := GrantedSet(s.granted) + {i};
    assert |counted| == s.voteCount;
    SubsetSize(counted, Voters(n, h, s.term, i));
  }

  lemma {:induction false} NoLeaderYet(n: int, i: int, s: NodeState, h: History)
    requires HistoryOk(n, h) && NodeOk(n, i, s, h) && s.role == Candidate
    requires IsQuorum(n, Voters(n, h, s.term, i))
    ensures s.term !in h.lead
  {
    if s.term in h.lead {
      assert LeadOk(n, h, s.term);
      var v := QuorumsMeet(n, Voters(n, h, s.term, i), h.lead[s.term].quorum);
    }
  }

  /** One more vote, before the majority test. */
  lemma {:induction false} CountedOk(n: int, i: int, s: NodeState, h: History, p: Packet)
    requires NodeOk(n, i, s, h) && MessageOk(n, h, p.src, i, p.msg)
    requires s.role == Candidate && CountsVote(s, p) && p.msg.term == s.term
    ensures NodeOk(n, i, s.(granted := s.granted[p.src := true], voteCount := s.voteCount + 1), h)
  {
    GrantedOneMore(s.granted, p.src);
    var c := s.(granted := s.granted[p.src := true], voteCount := s.voteCount + 1);
    assert CandidateOk(i, c, h);
  }

  /** A candidate with a majority of recorded votes that has become leader. */
  lemma {:induction false} ElectedKept(n: int, i: int, s: NodeState, c: NodeState, h: History, s': NodeState)
    requires HistoryOk(n, h) && NodeOk(n, i, c, h) && c.role == Candidate && c.voteCount > n / 2
    requires s.role == Candidate && s.votedFor == c.votedFor && s.term == c.term
    requires s'.role == Leader && Shaped(n, i, s') && s'.nextIndex == seq(n, _ => |c.log|)
    requires s'.term == c.term && s'.votedFor == c.votedFor && s'.log == c.log && s'.queue == c.queue
    ensures Kept(n, i, s, Outcome(s', Updates(i, s', n)), h)
  {
    VotersAreQuorum(n, i, c, h);
    NoLeaderYet(n, i, c, h);
    AddLead(n, h, i, s.term);
    var h' := Observe(n, i, s, s', h);
    CoveredExtends(h, h', s'.log);
    assert LeaderOk(i, s', h');
    UpdatesOk(n, i, s', h');
    forall q | q in s'.queue ensures q.dst == i && MessageOk(n, h', q.src, i, q.msg) {
      MessageExtends(n, h, h', q.src, i, q.msg);
    }
  }

  lemma {:induction false} WinKept(n: int, i: int, s: NodeState, h: History, p: Packet)
    requires HistoryOk(n, h) && NodeOk(n, i, s, h) && MessageOk(n, h, p.src, i, p.msg)
    requires s.role == Candidate && CountsVote(s, p) && p.msg.term == s.term && s.voteCount + 1 > n / 2
    ensures Kept(n, i, s, Receive(n, i, s, p), h)
  {
    var c := s.(granted := s.granted[p.src := true], voteCount := s.voteCount + 1);
    CountedOk(n, i, s, h, p);
    ElectedKept(n, i, s, c, h, Receive(n, i, s, p).node);
  }

  lemma {:induction false} CountKept(n: int, i: int, s: NodeState, h: History, p: Packet)
    requires HistoryOk(n, h) && NodeOk(n, i, s, h) && MessageOk(n, h, p.src, i, p.msg)
    requires s.role == Candidate && CountsVote(s, p) && p.msg.term == s.term && s.voteCount + 1 <= n / 2
    ensures Kept(n, i, s, Receive(n, i, s, p), h)
  {
    CountedOk(n, i, s, h, p);
    Unrecorded(n, i, s, Receive(n, i, s, p), h);
  }

  lemma {:induction false} YieldKept(n: int, i: int, s: NodeState, h: History, p: Packet)
    requires HistoryOk(n, h) && NodeOk(n, i, s, h) && p.dst == i && MessageOk(n, h, p.src, i, p.msg)
    requires s.role == Candidate && p.msg.term == s.term && 0 <= p.src < n
    ensures p.msg.AppendEntries? ==> Kept(n, i, s, Receive(n, i, s, p), h)
  {
    if p.msg.AppendEntries? {
      DemotedKept(n, i, s, h, p, Receive(n, i, s, p).node);
    }
  }

  lemma {:induction false} CandidateKept(n: int, i: int, s: NodeState, h: History, p: Packet)
    requires HistoryOk(n, h) && NodeOk(n, i, s, h) && p.dst == i && MessageOk(n, h, p.src, i, p.msg)
    requires s.role == Candidate && !StepsDown(s, p) && Defined(n, i, s, p)
    requires CountsVote(s, p) ==> p.msg.term == s.term
    ensures Kept(n, i, s, Receive(n, i, s, p), h)
  {
    if CountsVote(s, p) {
      if s.voteCount + 1 > n / 2 {
        WinKept(n, i, s, h, p);
      } else {
        CountKept(n, i, s, h, p);
      }
    } else if p.msg.AppendEntries? && p.msg.term >= s.term {
      YieldKept(n, i, s, h, p);
    } else {
      Unrecorded(n, i, s, Receive(n, i, s, p), h);
    }
  }

  // ---------------------------------------------------------------- leader

  lemma {:induction false} AckNodeOk(n: int, i: int, s: NodeState, h: History, p: Packet)
    requires NodeOk(n, i, s, h) && MessageOk(n, h, p.src, i, p.msg)
    requires s.role == Leader && DefinedAck(s, p)
    ensures NodeOk(n, i, HandleAck(i, s, p).node, h)
  {
  }

  lemma {:induction false} AckSendsOk(n: int, i: int, s: NodeState, h: History, p: Packet)
    requires HistoryOk(n, h) && Shaped(n, i, s) && LeaderOk(i, s, h) && p.src != i && 0 <= p.src < n
    requires s.role == Leader && DefinedAck(s, p)
    ensures forall snd | snd in HandleAck(i, s, p).sends :: MessageOk(n, h, i, snd.dst, snd.msg)
  {
    if p.msg.AppendEntriesResponse? && !p.msg.success {
      var d := HandleAck(i, s, p).node;
      assert LeaderOk(i, d, h);
      AppendForOk(n, i, d, h, p.src);
      assert HandleAck(i, s, p).sends == [Send(p.src, AppendFor(i, d, p.src))];
    }
  }

  lemma {:induction false} CommitNodeOk(n: int, i: int, s: NodeState, h: History, s': NodeState)
    requires NodeOk(n, i, s, h)
    requires s' == s.(commitIndex := s'.commitIndex, saved := s'.saved, replied := s'.replied)
    ensures NodeOk(n, i, s', h)
  {
  }

  lemma {:induction false} LeaderUnrecorded(n: int, i: int, s: NodeState, o: Outcome, h: History)
    requires HistoryOk(n, h) && NodeOk(n, i, s, h) && NodeOk(n, i, o.node, h)
    requires s.role == Leader == o.node.role && o.node.term == s.term && o.node.votedFor == s.votedFor
    requires o.node.log == s.log
    requires forall snd | snd in o.sends :: MessageOk(n, h, i, snd.dst, snd.msg)
    ensures Kept(n, i, s, o, h)
  {
    Unrecorded(n, i, s, o, h);
  }

  lemma {:induction false} LeaderKept(n: int, i: int, s: NodeState, h: History, p: Packet)
    requires HistoryOk(n, h) && NodeOk(n, i, s, h) && MessageOk(n, h, p.src, i, p.msg)
    requires s.role == Leader && !StepsDown(s, p) && Defined(n, i, s, p)
    ensures Kept(n, i, s, Receive(n, i, s, p), h)
  {
    AckNodeOk(n, i, s, h, p);
    AckSendsOk(n, i, s, h, p);
    var d := HandleAck(i, s, p).node;
    var o := Receive(n, i, s, p);
    assert o == Outcome(CommitLoop(n, i, d), HandleAck(i, s, p).sends);
    CommitNodeOk(n, i, d, h, o.node);
    LeaderUnrecorded(n, i, s, o, h);
  }

  lemma {:induction false} ClientKept(n: int, i: int, s: NodeState, h: History, cmd: string, clientId: int)
    requires HistoryOk(n, h) && NodeOk(n, i, s, h)
    ensures Kept(n, i, s, Outcome(ClientAppend(s, cmd, clientId), []), h)
  {
    if s.role == Leader {
      var e := Entry(|s.log|, s.term, cmd, clientId);
      GrowLead(n, h, s.term, e);
      var s' := ClientAppend(s, cmd, clientId);
      var h' := Observe(n, i, s, s', h);
      assert h' == h.(lead := h.lead[s.term := h.lead[s.term].(log := h.lead[s.term].log + [e])]);
      forall q | q in s.queue ensures q.dst == i && MessageOk(n, h', q.src, i, q.msg) {
        MessageExtends(n, h, h', q.src, i, q.msg);
      }
    }
  }

  // ---------------------------------------------------------------- any message

  lemma {:induction false} ReceiveKept(n: int, i: int, s: NodeState, h: History, p: Packet)
    requires HistoryOk(n, h) && NodeOk(n, i, s, h) && p.dst == i && MessageOk(n, h, p.src, i, p.msg)
    requires Defined(n, i, s, p)
    requires s.role == Candidate && CountsVote(s, p) ==> p.msg.term >= s.term
    ensures Kept(n, i, s, Receive(n, i, s, p), h)
  {
    if StepsDown(s, p) {
      StepDownKept(n, i, s, h, p);
    } else {
      match s.role {
        case Follower => FollowerKept(n, i, s, h, p);
        case Candidate => CandidateKept(n, i, s, h, p);
        case Leader => LeaderKept(n, i, s, h, p);
      }
    }
  }
}
