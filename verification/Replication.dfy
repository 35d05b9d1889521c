/** What one leadership does to a follower, as statements about runs. */
module Replication {
  import opened Types
  import opened NodeSpec
  import opened Clusters
  import opened History
  import opened BaseProof
  import opened BaseRuns
  import opened Terms
  import opened Bounds
  import opened Appends
  import opened Truncation
  import opened Shape
  import opened Moves
  import opened Marks
  import opened MarkStep
  import opened Acks
  import opened Safety
  import opened NodeFacts

  // ---------------------------------------------------------------- the accepted log is the log sent

  lemma {:induction false} StepAccepts(n: int, c: Cluster, h: History, step: Step)
    requires BaseInv(n, c, h) && Enabled(n, c, step) && Accepted(Before(c, step), Handling(c, step))
    ensures var (p, s') := (Handling(c, step).value, Effect(n, c, step).node);
            && p.msg.term in h.lead && h.lead[p.msg.term].leader == p.src
            && s'.log <= h.lead[p.msg.term].log
            && |s'.log| == Total(p.msg) && s'.term == p.msg.term
    ensures InFlight(c, Handling(c, step).value) && !BeyondLog(Handling(c, step).value.msg)
  {
    var p := Handling(c, step).value;
    EffectMoves(n, c, step);
    BaseReady(n, c, h, step);
    HandledInFlight(n, c, step);
    AcceptFacts(n, Actor(step), Before(c, step), p, Effect(n, c, step).node, h);
    AcceptNotBeyond(n, Actor(step), Before(c, step), h, p);
  }

  lemma {:induction false} AcceptedLead(n: int, r: Run, hs: seq<History>, k: nat, i: int, p: Packet)
    requires Records(n, r, hs)
    requires IsRun(n, r) && FreshVotes(n, r) && AcceptsAt(n, r, k, i, p)
    ensures var h := hs[k];
            && p.msg.term in h.lead && h.lead[p.msg.term].leader == p.src
            && NodeAt(r, k + 1, i).log <= h.lead[p.msg.term].log
            && |NodeAt(r, k + 1, i).log| == Total(p.msg) && NodeAt(r, k + 1, i).term == p.msg.term
    ensures InFlight(r.states[k], p) && !BeyondLog(p.msg)
  {
    BaseHolds(n, r, hs, k);
    StepAccepts(n, r.states[k], hs[k], r.steps[k]);
    assert NodeAt(r, k + 1, i) == Effect(n, r.states[k], r.steps[k]).node;
  }

  lemma {:induction false} AcceptNotBeyond(n: int, i: int, s: NodeState, h: History, p: Packet)
    requires LogOk(s, h) && Accepted(s, Some(p))
    ensures !BeyondLog(p.msg)
  {
  }

  lemma {:induction false} AcceptGivesWhole(s: NodeState, p: Packet, s': NodeState, log: seq<Entry>)
    requires Accepted(s, Some(p)) && AcceptMove(s, p, s') && SuffixOf(log, p.msg)
    requires var prev := p.msg.prevLogIndex;
             0 <= prev < |s.log| && s.log[prev].term == log[prev].term ==> s.log[..prev + 1] == log[..prev + 1]
    ensures s'.log == log
  {
    var cut := p.msg.prevLogIndex + 1;
    assert log[..cut] + log[cut..] == log;
    assert s.log[..cut] == log[..cut];
  }

  /** After an accepted append the follower's whole log is the sender's log at the moment m of the sending. */
  lemma {:induction false} AcceptedEqualsSent(n: int, r: Run, k: nat, i: int, p: Packet) returns (m: nat)
    requires IsRun(n, r) && FreshVotes(n, r) && AcceptsAt(n, r, k, i, p)
    ensures m <= k && EntersAt(r, m, p) && LeadsAt(r, m, p.src, p.msg.term)
    ensures NodeAt(r, k + 1, i).log == NodeAt(r, m, p.src).log
  {
    HandledInFlight(n, r.states[k], r.steps[k]);
    m := AppendIsSuffix(n, r, k, p);
    LogTermsClimb(n, r, k, i);
    var (s, log, prev) := (NodeAt(r, k, i), NodeAt(r, m, p.src).log, p.msg.prevLogIndex);
    if 0 <= prev < |s.log| && prev < |log| && s.log[prev].term == log[prev].term {
      LogMatching(n, r, k, m, i, p.src, prev);
    }
    EffectMoves(n, r.states[k], r.steps[k]);
    AcceptGivesWhole(Before(r.states[k], r.steps[k]), p, NodeAt(r, k + 1, i), log);
    hide *;
  }

  // ---------------------------------------------------------------- within one leadership

  /** After an accept, the node's mark for the term is its log. */
  lemma {:induction false} AcceptMarks(n: int, r: Run, hs: seq<History>, ms: seq<Marks>, k: nat, i: int, p: Packet)
    requires Chronicle(n, r, hs, ms)
    requires Orderly(n, r) && AcceptsAt(n, r, k, i, p)
    ensures var key := Key(p.msg.term, i);
            && key in ms[k + 1]
            && ms[k + 1][key].length == |NodeAt(r, k + 1, i).log|
  {
    assert MarksStep(n, r, ms, k);
    AcceptedLead(n, r, hs, k, i, p);
  }

  lemma {:induction false} MarkedKeepsLog(n: int, r: Run, hs: seq<History>, ms: seq<Marks>, k: nat, i: int, t: int)
    requires Chronicle(n, r, hs, ms)
    requires Orderly(n, r) && k < |r.states| && 0 <= i < |r.states[k].nodes| && NodeAt(r, k, i).term == t
    requires Key(t, i) in ms[k]
    ensures Head(hs[k], t, ms[k][Key(t, i)].length) <= NodeAt(r, k, i).log
  {
    AckHolds(n, r, hs, ms, k);
    var (h, a) := (hs[k], ms[k]);
    assert NodeMarked(n, i, NodeAt(r, k, i), h, a) && MarkOk(h, a, Key(t, i));
    if a[Key(t, i)].length > 0 {
      assert Keeps(h, t, a[Key(t, i)].length, NodeAt(r, k, i).log, t);
    }
  }

  lemma {:induction false} LongerHead(h: History, t: int, log: seq<Entry>, x: int, y: int)
    requires t in h.lead && log <= h.lead[t].log && |log| == x <= y <= |h.lead[t].log|
    ensures log <= Head(h, t, y)
  {
  }

  /** A node that has a mark in its term accepts any append of that term. */
  lemma {:induction false} MarkedAccepts(n: int, i: int, s: NodeState, h: History, a: Marks, src: int, m: Message)
    requires MarksOk(h, a) && NodeMarked(n, i, s, h, a)
    requires m.AppendEntries? && m.term == s.term && Key(s.term, i) in a
    requires MessageMarked(h, a, src, i, m) && m.term in h.lead
    ensures SliceOk(h, m) ==> Accepts(s, m)
  {
    var x := a[Key(s.term, i)].length;
    assert MarkOk(h, a, Key(s.term, i));
    if m.prevLogIndex >= 0 {
      assert m.prevLogIndex < x;
      assert Keeps(h, s.term, x, s.log, s.term);
      assert s.log[m.prevLogIndex] == Head(h, s.term, x)[m.prevLogIndex];
    }
  }

  lemma {:induction false} MarksReady(n: int, r: Run, hs: seq<History>, ms: seq<Marks>, k: nat, i: int, p: Packet)
    requires Chronicle(n, r, hs, ms)
    requires Orderly(n, r) && HandlesAt(n, r, k, i, p)
    ensures MarksOk(hs[k], ms[k])
    ensures NodeMarked(n, i, Before(r.states[k], r.steps[k]), hs[k], ms[k])
    ensures MessageMarked(hs[k], ms[k], p.src, i, p.msg)
  {
    AckHolds(n, r, hs, ms, k);
    ReadyToMove(n, r.states[k], hs[k], ms[k], r.steps[k]);
  }

  lemma {:induction false} SliceReady(n: int, r: Run, hs: seq<History>, k: nat, i: int, p: Packet)
    requires Records(n, r, hs)
    requires Orderly(n, r) && HandlesAt(n, r, k, i, p)
    ensures p.msg.term in hs[k].lead && SliceOk(hs[k], p.msg)
  {
    ShapeHolds(n, r, hs, k);
    assert NodeInside(r.states[k].nodes[i], hs[k]);
    if r.steps[k].Resume? {
      assert r.states[k].nodes[i].queue[0] in r.states[k].nodes[i].queue;
    }
  }

  /** Once a follower has accepted an append of a term, it accepts every append of it that it handles in that term. */
  lemma {:induction false} OnceAcceptedAlwaysAccepted(n: int, r: Run, j: nat, k: nat, i: int, p: Packet, q: Packet)
    requires Orderly(n, r) && AcceptsAt(n, r, j, i, p) && j < k && HandlesAt(n, r, k, i, q)
    requires q.msg.term == p.msg.term == NodeAt(r, k, i).term
    ensures AcceptsAt(n, r, k, i, q)
  {
    var hs, ms := WriteChronicle(n, r);
    MarkedSince(n, r, hs, ms, j, k, i, p);
    MarksReady(n, r, hs, ms, k, i, q);
    SliceReady(n, r, hs, k, i, q);
    MarkedAccepts(n, i, Before(r.states[k], r.steps[k]), hs[k], ms[k], q.src, q.msg);
  }

  lemma {:induction false} AppliesFrom(s: NodeState, p: Packet, s': NodeState)
    requires Accepted(s, Some(p)) && AcceptMove(s, p, s')
    requires -1 <= s.commitIndex <= p.msg.leaderCommit < |s'.log|
    ensures s.commitIndex <= s'.commitIndex == p.msg.leaderCommit
    ensures s'.saved == s.saved + s'.log[s.commitIndex + 1..s'.commitIndex + 1]
  {
  }

  lemma {:induction false} CommitInsideAt(n: int, r: Run, hs: seq<History>, k: nat, i: int)
    requires Records(n, r, hs)
    requires Orderly(n, r) && k < |r.states| && 0 <= i < |r.states[k].nodes|
    ensures -1 <= NodeAt(r, k, i).commitIndex < |NodeAt(r, k, i).log|
  {
    ShapeHolds(n, r, hs, k);
    assert NodeInside(NodeAt(r, k, i), hs[k]);
  }

  lemma {:induction false} NoLessThanMark(n: int, i: int, s: NodeState, h: History, a: Marks, src: int, m: Message)
    requires NodeMarked(n, i, s, h, a) && m.AppendEntries? && MessageMarked(h, a, src, i, m)
    requires m.term == s.term && Key(s.term, i) in a
    ensures s.commitIndex <= m.leaderCommit
  {
  }

  /** A marked follower's commitIndex is its mark's, so no append of the term commits less. */
  lemma {:induction false} CommitsNoLess(n: int, r: Run, hs: seq<History>, ms: seq<Marks>, k: nat, i: int, q: Packet)
    requires Chronicle(n, r, hs, ms)
    requires Orderly(n, r) && HandlesAt(n, r, k, i, q)
    requires q.msg.term == NodeAt(r, k, i).term && Key(q.msg.term, i) in ms[k]
    ensures NodeAt(r, k, i).commitIndex <= q.msg.leaderCommit
  {
    MarksReady(n, r, hs, ms, k, i, q);
    NoLessThanMark(n, i, Before(r.states[k], r.steps[k]), hs[k], ms[k], q.src, q.msg);
  }

  lemma {:induction false} MarkedSince(n: int, r: Run, hs: seq<History>, ms: seq<Marks>, j: nat, k: nat, i: int,
                                       p: Packet)
    requires Chronicle(n, r, hs, ms)
    requires Orderly(n, r) && AcceptsAt(n, r, j, i, p) && j < k < |r.states|
    ensures Key(p.msg.term, i) in ms[k]
  {
    AcceptMarks(n, r, hs, ms, j, i, p);
    MarkLater(n, r, hs, ms, j + 1, k, Key(p.msg.term, i));
  }

  lemma {:induction false} AppliedStep(n: int, r: Run, k: nat, i: int, q: Packet)
    requires IsRun(n, r) && AcceptsAt(n, r, k, i, q)
    requires -1 <= NodeAt(r, k, i).commitIndex <= q.msg.leaderCommit
    requires NodeAt(r, k + 1, i).commitIndex < |NodeAt(r, k + 1, i).log|
    ensures var (s, s') := (NodeAt(r, k, i), NodeAt(r, k + 1, i));
            && s.commitIndex <= s'.commitIndex == q.msg.leaderCommit
            && s'.saved == s.saved + s'.log[s.commitIndex + 1..s'.commitIndex + 1]
  {
    EffectMoves(n, r.states[k], r.steps[k]);
    AppliesFrom(Before(r.states[k], r.steps[k]), q, NodeAt(r, k + 1, i));
  }

  /**
    Within one leadership, after the first accept, every further append leaves commitIndex no lower and saves
    exactly the entries from the old commitIndex + 1 to the new one, each once and in order.
   */
  lemma {:induction false} AppliedOutput(n: int, r: Run, j: nat, k: nat, i: int, p: Packet, q: Packet)
    requires Orderly(n, r) && AcceptsAt(n, r, j, i, p) && j < k && HandlesAt(n, r, k, i, q)
    requires q.msg.term == p.msg.term == NodeAt(r, k, i).term
    ensures var (s, s') := (NodeAt(r, k, i), NodeAt(r, k + 1, i));
            && -1 <= s.commitIndex <= s'.commitIndex == q.msg.leaderCommit < |s'.log|
            && s'.saved == s.saved + s'.log[s.commitIndex + 1..s'.commitIndex + 1]
  {
    var hs, ms := WriteChronicle(n, r);
    OnceAcceptedAlwaysAccepted(n, r, j, k, i, p, q);
    MarkedSince(n, r, hs, ms, j, k, i, p);
    CommitsNoLess(n, r, hs, ms, k, i, q);
    CommitInsideAt(n, r, hs, k, i);
    CommitInsideAt(n, r, hs, k + 1, i);
    AppliedStep(n, r, k, i, q);
  }

  // ---------------------------------------------------------------- matchIndex

  lemma {:induction false} MatchHeld(n: int, i: int, l: NodeState, h: History, a: Marks, f: int)
    requires MarksOk(h, a) && l.role == Leader && LeaderOk(i, l, h) && LeaderMarked(n, i, l, h, a)
    requires 0 <= f < n == |l.matchIndex| && l.matchIndex[f] >= 0
    ensures Key(l.term, f) in a && l.matchIndex[f] < |l.log|
    ensures l.log[..l.matchIndex[f] + 1] <= Head(h, l.term, a[Key(l.term, f)].length)
  {
    assert Length(a, l.term, f) >= l.matchIndex[f] + 1;
    assert MarkOk(h, a, Key(l.term, f));
    LongerHead(h, l.term, l.log[..l.matchIndex[f] + 1], l.matchIndex[f] + 1, a[Key(l.term, f)].length);
  }

  lemma {:induction false} MatchHeldAt(n: int, r: Run, hs: seq<History>, ms: seq<Marks>, k: nat, i: int, f: int, t: int)
    requires Chronicle(n, r, hs, ms)
    requires Orderly(n, r) && LeadsAt(r, k, i, t) && 0 <= f < n && |r.states[k].nodes| == n
    requires |NodeAt(r, k, i).matchIndex| == n && NodeAt(r, k, i).matchIndex[f] >= 0
    ensures var (l, m) := (NodeAt(r, k, i), NodeAt(r, k, i).matchIndex[f]);
            && m < |l.log| && Key(t, f) in ms[k]
            && l.log[..m + 1] <= Head(hs[k], t, ms[k][Key(t, f)].length)
  {
    AckHolds(n, r, hs, ms, k);
    var (h, a) := (hs[k], ms[k]);
    assert NodeOk(n, i, NodeAt(r, k, i), h) && NodeMarked(n, i, NodeAt(r, k, i), h, a);
    MatchHeld(n, i, NodeAt(r, k, i), h, a, f);
  }

  lemma {:induction false} MatchHad(n: int, r: Run, hs: seq<History>, ms: seq<Marks>, k: nat, f: int, t: int,
                                    part: seq<Entry>)
    requires Chronicle(n, r, hs, ms)
    requires Orderly(n, r) && k < |r.states| && Key(t, f) in ms[k]
    requires part <= Head(hs[k], t, ms[k][Key(t, f)].length)
    ensures HadLog(r, k, f, t, part)
  {
    MarkWitnessed(n, r, hs, ms, k, Key(t, f));
    HadPrefix(r, k, f, t, Head(hs[k], t, ms[k][Key(t, f)].length), part);
  }

  lemma {:induction false} MatchStill(n: int, r: Run, hs: seq<History>, ms: seq<Marks>, k: nat, f: int, t: int,
                                      part: seq<Entry>)
    requires Chronicle(n, r, hs, ms)
    requires Orderly(n, r) && k < |r.states| && Key(t, f) in ms[k]
    requires part <= Head(hs[k], t, ms[k][Key(t, f)].length)
    requires 0 <= f < |r.states[k].nodes| && NodeAt(r, k, f).term == t
    ensures part <= NodeAt(r, k, f).log
  {
    MarkedKeepsLog(n, r, hs, ms, k, f, t);
    PrefixTrans(part, Head(hs[k], t, ms[k][Key(t, f)].length), NodeAt(r, k, f).log);
  }

  /**
    matchIndex is sound: the node it stands for has had the leader's log up to that index in this term,
    and still has it if it is still in this term.
   */
  lemma {:induction false} MatchIndexSound(n: int, r: Run, k: nat, i: int, f: int, t: int)
    requires Orderly(n, r) && LeadsAt(r, k, i, t) && 0 <= f < n && |r.states[k].nodes| == n
    requires |NodeAt(r, k, i).matchIndex| == n && NodeAt(r, k, i).matchIndex[f] >= 0
    ensures NodeAt(r, k, i).matchIndex[f] < |NodeAt(r, k, i).log|
    ensures HadLog(r, k, f, t, NodeAt(r, k, i).log[..NodeAt(r, k, i).matchIndex[f] + 1])
    ensures NodeAt(r, k, f).term == t ==>
              NodeAt(r, k, i).log[..NodeAt(r, k, i).matchIndex[f] + 1] <= NodeAt(r, k, f).log
  {
    var hs, ms := WriteChronicle(n, r);
    MatchHeldAt(n, r, hs, ms, k, i, f, t);
    MatchHad(n, r, hs, ms, k, f, t, NodeAt(r, k, i).log[..NodeAt(r, k, i).matchIndex[f] + 1]);
    if NodeAt(r, k, f).term == t {
      MatchStill(n, r, hs, ms, k, f, t, NodeAt(r, k, i).log[..NodeAt(r, k, i).matchIndex[f] + 1]);
    }
  }

  lemma {:induction false} HadPrefix(r: Run, k: nat, v: int, t: int, log: seq<Entry>, part: seq<Entry>)
    requires HadLog(r, k, v, t, log) && part <= log
    ensures HadLog(r, k, v, t, part)
  {
    var m: nat :| HasLog(r, m, v, t, log) && m <= k;
    PrefixTrans(part, log, NodeAt(r, m, v).log);
    assert HasLog(r, m, v, t, part);
  }

  lemma {:induction false} LeadMoveRaises(n: int, i: int, s: NodeState, p: Option<Packet>, s': NodeState, f: int)
    requires Shaped(n, i, s) && Moved(n, i, s, p, s') && s.role == Leader == s'.role && 0 <= f < n
    requires AckFrom(p, f) ==> s.matchIndex[f] < p.value.msg.newIndex
    ensures s.matchIndex[f] <= s'.matchIndex[f] && s.commitIndex <= s'.commitIndex
  {
  }

  /** A success response that a leader handles in its term tells it nothing older than it knows. */
  lemma {:induction false} HandledAckAhead(n: int, c: Cluster, h: History, a: Marks, step: Step, f: int)
    requires AckInv(n, c, h, a) && Enabled(n, c, step) && FreshAck(n, c, step) && 0 <= f < n
    requires Before(c, step).role == Leader && AckFrom(Handling(c, step), f)
    requires Handling(c, step).value.msg.term <= Before(c, step).term
    ensures Before(c, step).matchIndex[f] < Handling(c, step).value.msg.newIndex
  {
    var p := Handling(c, step).value;
    assert step == Deliver(p) && AckAhead(c, p);
  }

  lemma {:induction false} StepRaises(n: int, c: Cluster, h: History, a: Marks, step: Step, f: int)
    requires AckInv(n, c, h, a) && Enabled(n, c, step) && FreshAck(n, c, step) && 0 <= f < n
    requires Before(c, step).role == Leader == Effect(n, c, step).node.role
    ensures var (s, s') := (Before(c, step), Effect(n, c, step).node);
            && |s.matchIndex| == n == |s'.matchIndex|
            && s.matchIndex[f] <= s'.matchIndex[f] && s.commitIndex <= s'.commitIndex
  {
    var p := Handling(c, step);
    EffectMoves(n, c, step);
    if AckFrom(p, f) {
      HandledAckAhead(n, c, h, a, step, f);
    }
    LeadMoveRaises(n, Actor(step), Before(c, step), p, Effect(n, c, step).node, f);
  }

  lemma {:induction false} MatchIndexStep(n: int, r: Run, k: nat, i: int, f: int, t: int)
    requires Orderly(n, r) && LeadsAt(r, k, i, t) && LeadsAt(r, k + 1, i, t) && 0 <= f < n
    ensures |NodeAt(r, k, i).matchIndex| == n == |NodeAt(r, k + 1, i).matchIndex|
    ensures NodeAt(r, k, i).matchIndex[f] <= NodeAt(r, k + 1, i).matchIndex[f]
    ensures NodeAt(r, k, i).commitIndex <= NodeAt(r, k + 1, i).commitIndex
  {
    var hs, ms := WriteChronicle(n, r);
    AckHolds(n, r, hs, ms, k);
    assert StepsTo(n, r, k);
    assert NodeOk(n, i, r.states[k].nodes[i], hs[k]);
    if i == Actor(r.steps[k]) {
      StepRaises(n, r.states[k], hs[k], ms[k], r.steps[k], f);
    }
  }

  /** A node that leads a term leads it for as long as it is in the term. */
  lemma {:induction false} LeadsStill(n: int, r: Run, j: nat, k: nat, i: int, t: int)
    requires IsRun(n, r) && j <= k && LeadsAt(r, j, i, t) && NodeIn(r, k, i) && NodeAt(r, k, i).term == t
    ensures LeadsAt(r, k, i, t)
  {
    if j < k {
      SameNodes(n, r, k - 1);
      SameNodes(n, r, k);
      OneVotePerTerm(n, r, j, k - 1, i);
      OneVotePerTerm(n, r, k - 1, k, i);
      LeadsStill(n, r, j, k - 1, i, t);
      assert StepsTo(n, r, k - 1);
      EffectMoves(n, r.states[k - 1], r.steps[k - 1]);
      hide Effect;
    }
  }

  /** As long as a node leads a term, neither its matchIndex for any node nor its commitIndex falls. */
  lemma {:induction false} MatchIndexMonotone(n: int, r: Run, j: nat, k: nat, i: int, f: int, t: int)
    requires Orderly(n, r) && j <= k && LeadsAt(r, j, i, t) && LeadsAt(r, k, i, t) && 0 <= f < n
    ensures |NodeAt(r, j, i).matchIndex| == n == |NodeAt(r, k, i).matchIndex|
    ensures NodeAt(r, j, i).matchIndex[f] <= NodeAt(r, k, i).matchIndex[f]
    ensures NodeAt(r, j, i).commitIndex <= NodeAt(r, k, i).commitIndex
  {
    if j == k {
      IndicesInside(n, r, k, i);
    } else {
      SameNodes(n, r, k - 1);
      SameNodes(n, r, k);
      OneVotePerTerm(n, r, j, k - 1, i);
      OneVotePerTerm(n, r, k - 1, k, i);
      LeadsStill(n, r, j, k - 1, i, t);
      MatchIndexMonotone(n, r, j, k - 1, i, f, t);
      MatchIndexStep(n, r, k - 1, i, f, t);
    }
  }

  // ---------------------------------------------------------------- when commitIndex falls

  lemma {:induction false} MoveLowers(n: int, i: int, s: NodeState, p: Option<Packet>, s': NodeState)
    requires Moved(n, i, s, p, s')
    ensures s'.commitIndex < s.commitIndex <==> Accepted(s, p) && p.value.msg.leaderCommit < s.commitIndex
  {
  }

  /**
    In any run, a step lowers a node's commitIndex if and only if the node then accepts an append whose
    leaderCommit is below it.
   */
  lemma {:induction false} CommitIndexFallsExactly(n: int, r: Run, k: nat, i: int)
    requires IsRun(n, r) && k < |r.steps| && NodeIn(r, k, i) && NodeIn(r, k + 1, i)
    ensures NodeAt(r, k + 1, i).commitIndex < NodeAt(r, k, i).commitIndex <==>
            exists p :: AcceptsAt(n, r, k, i, p) && p.msg.leaderCommit < NodeAt(r, k, i).commitIndex
  {
    var (c, step) := (r.states[k], r.steps[k]);
    assert StepsTo(n, r, k);
    if i == Actor(step) {
      EffectMoves(n, c, step);
      MoveLowers(n, i, Before(c, step), Handling(c, step), Effect(n, c, step).node);
      hide Effect;
      if NodeAt(r, k + 1, i).commitIndex < NodeAt(r, k, i).commitIndex {
        assert AcceptsAt(n, r, k, i, Handling(c, step).value);
      }
    }
  }

  /** In an orderly run it falls only with the first append that the node accepts in a term. */
  lemma {:induction false} CommitIndexFallsFirst(n: int, r: Run, j: nat, k: nat, i: int, p: Packet, q: Packet)
    requires Orderly(n, r) && AcceptsAt(n, r, j, i, p) && j < k && AcceptsAt(n, r, k, i, q)
    requires NodeIn(r, k, i) && q.msg.leaderCommit < NodeAt(r, k, i).commitIndex
    ensures p.msg.term < q.msg.term
  {
    var hs := WriteHistory(n, r);
    AcceptedLead(n, r, hs, j, i, p);
    AcceptedLead(n, r, hs, k, i, q);
    SameNodes(n, r, j + 1);
    SameNodes(n, r, k + 1);
    OneVotePerTerm(n, r, j + 1, k, i);
    OneVotePerTerm(n, r, k, k + 1, i);
    assert HandlesAt(n, r, k, i, q);
    hide AcceptsAt, HandlesAt, StepsTo, Orderly, Records;
    if p.msg.term == q.msg.term {
      AppliedOutput(n, r, j, k, i, p, q);
    }
  }
}
