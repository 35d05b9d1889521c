/** Marks and order over the whole cluster: with FIFO, fresh votes and fresh acknowledgements. */
module Acks {
  import opened Types
  import opened NodeSpec
  import opened Clusters
  import opened History
  import opened BaseRuns
  import opened Bounds
  import opened Shape
  import opened Moves
  import opened Order
  import opened Marks
  import opened MarkStep
  import opened MarkSends

  /** Earlier and later packets of one pair are in order, also behind a message put back for later. */
  ghost predicate Ordered(n: int, c: Cluster)
    requires |c.nodes| == n
  {
    Lined(n, c) && forall p, q {:trigger Precedes(c, p, q)} | Precedes(c, p, q) :: InOrder(p.msg, q.msg)
  }

  /** A success response on its way to the leader it is meant for is not behind what that leader knows. */
  ghost predicate AckAhead(c: Cluster, p: Packet) {
    p.msg.AppendEntriesResponse? && p.msg.success && 0 <= p.dst < |c.nodes|
    && c.nodes[p.dst].role == Leader && c.nodes[p.dst].term == p.msg.term
    && 0 <= p.src < |c.nodes[p.dst].matchIndex|
    ==> c.nodes[p.dst].matchIndex[p.src] < p.msg.newIndex
  }

  ghost predicate AckInv(n: int, c: Cluster, h: History, a: Marks) {
    && ShapeInv(n, c, h)
    && MarksOk(h, a)
    && BallotsMarked(h, a)
    && (forall i | 0 <= i < n :: NodeMarked(n, i, c.nodes[i], h, a))
    && (forall i, p | 0 <= i < n && p in c.nodes[i].queue :: MessageMarked(h, a, p.src, i, p.msg))
    && (forall p | p in c.net :: MessageMarked(h, a, p.src, p.dst, p.msg))
    && Ordered(n, c)
    && (forall p | p in c.net :: AckAhead(c, p))
  }

  function NextMarks(n: int, c: Cluster, a: Marks, step: Step): Marks
    requires Enabled(n, c, step)
  {
    Remember(Actor(step), Before(c, step), Handling(c, step), Effect(n, c, step).node, a)
  }

  // ---------------------------------------------------------------- the acting node

  lemma {:induction false} ReadyToMove(n: int, c: Cluster, h: History, a: Marks, step: Step)
    requires AckInv(n, c, h, a) && Enabled(n, c, step)
    ensures Ready(n, Actor(step), Before(c, step), Handling(c, step), h, a)
  {
    var i := Actor(step);
    assert NodeOk(n, i, c.nodes[i], h) && NodeMarked(n, i, c.nodes[i], h, a);
    if step.Resume? {
      assert c.nodes[i].queue[0] in c.nodes[i].queue;
    }
  }

  lemma {:induction false} NodeMoves(n: int, c: Cluster, h: History, a: Marks, step: Step)
    requires AckInv(n, c, h, a) && Enabled(n, c, step) && FreshVote(n, c, step) && FreshAck(n, c, step)
    ensures MarksKept(n, Actor(step), Effect(n, c, step).node, NextHistory(n, c, h, step), a, NextMarks(n, c, a, step))
    ensures BallotsMarked(NextHistory(n, c, h, step), NextMarks(n, c, a, step))
  {
    var i := Actor(step);
    var s := Before(c, step);
    var p := Handling(c, step);
    var s' := Effect(n, c, step).node;
    var h' := NextHistory(n, c, h, step);
    ReadyToMove(n, c, h, a, step);
    EffectKept(n, c, h, step);
    EffectMoves(n, c, step);
    MovedMarked(n, i, s, p, s', h, h', a);
    BallotsMoved(n, i, s, p, s', h, h', a, NextMarks(n, c, a, step));
  }

  // ---------------------------------------------------------------- what the node sends

  /** The two ways a leader comes out of a step, as far as its sends are concerned. */
  lemma {:induction false} LeaderComesFrom(n: int, i: int, s: NodeState, p: Option<Packet>, s': NodeState)
    requires Moved(n, i, s, p, s') && s'.role == Leader
    ensures s'.term == s.term && s.log <= s'.log && (s.role == Leader || s.role == Candidate)
    ensures s.commitIndex <= s'.commitIndex
  {
  }

  lemma {:induction false} SendMarked(n: int, c: Cluster, h: History, a: Marks, step: Step, snd: Send)
    requires AckInv(n, c, h, a) && Enabled(n, c, step) && FreshVote(n, c, step) && FreshAck(n, c, step)
    requires snd in Effect(n, c, step).sends
    ensures MessageMarked(NextHistory(n, c, h, step), NextMarks(n, c, a, step), Actor(step), snd.dst, snd.msg)
  {
    var i := Actor(step);
    var s := Before(c, step);
    var s' := Effect(n, c, step).node;
    var h' := NextHistory(n, c, h, step);
    var a' := NextMarks(n, c, a, step);
    NodeMoves(n, c, h, a, step);
    EffectMoves(n, c, step);
    if snd.msg.AppendEntries? {
      AppendsBound(n, c, step, snd);
      LeaderComesFrom(n, i, s, Handling(c, step), s');
      ReadyToMove(n, c, h, a, step);
      EffectKept(n, c, h, step);
      OthersBehind(n, i, s, s', h, h', a, snd.dst);
      SentMarked(n, i, s, s', h', a, a', snd);
    } else if snd.msg.AppendEntriesResponse? && snd.msg.success {
      AcksSent(n, c, step, snd);
    }
  }

  lemma {:induction false} SendAfter(n: int, c: Cluster, h: History, a: Marks, step: Step, dst: int, m: Message,
                                     snd: Send)
    requires AckInv(n, c, h, a) && Enabled(n, c, step) && FreshVote(n, c, step) && FreshAck(n, c, step)
    requires snd in Effect(n, c, step).sends
    requires MessageMarked(h, a, Actor(step), dst, m) && MessageInside(h, m)
    ensures InOrder(m, snd.msg)
  {
    var i := Actor(step);
    var s := Before(c, step);
    var s' := Effect(n, c, step).node;
    ReadyToMove(n, c, h, a, step);
    if snd.msg.AppendEntries? {
      AppendsBound(n, c, step, snd);
      EffectMoves(n, c, step);
      LeaderComesFrom(n, i, s, Handling(c, step), s');
      EffectKept(n, c, h, step);
      AppendAfter(n, i, s, s', h, NextHistory(n, c, h, step), a, dst, m, snd);
    } else if snd.msg.AppendEntriesResponse? && snd.msg.success {
      AcksSent(n, c, step, snd);
      AckAfter(h, a, i, Handling(c, step).value, dst, m, snd);
    }
  }

  lemma {:induction false} SendsTogether(n: int, c: Cluster, h: History, step: Step, x: Send, y: Send)
    requires ShapeInv(n, c, h) && Enabled(n, c, step) && FreshVote(n, c, step) && FreshAck(n, c, step)
    requires x in Effect(n, c, step).sends && y in Effect(n, c, step).sends
    ensures InOrder(x.msg, y.msg)
  {
    if x.msg.AppendEntries? && y.msg.AppendEntries? {
      AppendsBound(n, c, step, x);
      AppendsBound(n, c, step, y);
    } else if x.msg.AppendEntriesResponse? && x.msg.success && y.msg.AppendEntriesResponse? && y.msg.success {
      AcksSent(n, c, step, x);
      AcksSent(n, c, step, y);
    }
  }

  // ---------------------------------------------------------------- order

  lemma {:induction false} PairOrdered(n: int, c: Cluster, h: History, a: Marks, step: Step, p: Packet, q: Packet)
    requires AckInv(n, c, h, a) && Enabled(n, c, step)
    requires FreshVote(n, c, step) && FreshAck(n, c, step) && Fifo(n, c, step)
    requires Precedes(Apply(n, c, step), p, q)
    ensures InOrder(p.msg, q.msg)
  {
    var (i, sends) := (Actor(step), Effect(n, c, step).sends);
    BoundsReady(n, c, step);
    PrecedesBefore(n, c, step, p, q);
    if !Precedes(c, p, q) {
      Stamped(i, c.nextId, sends, q);
      if p in Stamp(i, c.nextId, sends) {
        Stamped(i, c.nextId, sends, p);
        SendsTogether(n, c, h, step, Send(p.dst, p.msg), Send(q.dst, q.msg));
      } else {
        assert p !in c.net ==> NodeInside(c.nodes[q.dst], h);
        SendAfter(n, c, h, a, step, q.dst, p.msg, Send(q.dst, q.msg));
      }
    }
    hide Effect;
  }

  lemma {:induction false} OrderedKept(n: int, c: Cluster, h: History, a: Marks, step: Step)
    requires AckInv(n, c, h, a) && Enabled(n, c, step)
    requires FreshVote(n, c, step) && FreshAck(n, c, step) && Fifo(n, c, step)
    ensures Ordered(n, Apply(n, c, step))
  {
    LinedKept(n, c, step);
    forall p, q | Precedes(Apply(n, c, step), p, q) ensures InOrder(p.msg, q.msg) {
      PairOrdered(n, c, h, a, step, p, q);
    }
  }

  // ---------------------------------------------------------------- messages against the new marks

  /** No append of its own term is addressed to a leader. */
  lemma {:induction false} LeaderHearsNone(n: int, i: int, s': NodeState, h: History, h': History, src: int, m: Message)
    requires MessageOk(n, h, src, i, m) && m.AppendEntries? && Extends(h, h') && LeaderOk(i, s', h')
    ensures s'.role == Leader ==> m.term != s'.term
  {
  }

  /** What is still on its way to a node that accepts an append is not behind the node's new mark. */
  lemma {:induction false} AcceptedBehind(n: int, c: Cluster, h: History, a: Marks, step: Step, q: Packet)
    requires AckInv(n, c, h, a) && Enabled(n, c, step) && Fifo(n, c, step)
    ensures q in Taken(c, step) && q.dst == Actor(step) && q.msg.AppendEntries?
            && Accepted(Before(c, step), Handling(c, step)) && q.msg.term == Effect(n, c, step).node.term ==>
              AheadOf(NextMarks(n, c, a, step), q.msg.term, q.dst, Total(q.msg), q.msg.leaderCommit)
  {
    var (s, p, s') := (Before(c, step), Handling(c, step), Effect(n, c, step).node);
    if q in Taken(c, step) && q.dst == Actor(step) && q.msg.AppendEntries? && Accepted(s, p)
       && q.msg.term == s'.term {
      assert MessageOk(n, h, q.src, q.dst, q.msg) && MessageMarked(h, a, q.src, q.dst, q.msg);
      EffectMoves(n, c, step);
      ReadyToMove(n, c, h, a, step);
      BoundsReady(n, c, step);
      if q.src == p.value.src {
        HandledPrecedes(n, c, step, q);
      }
      hide Effect;
    }
  }

  /** The same whatever the node does: a leader is sent no append of its own term. */
  lemma {:induction false} StillAhead(n: int, c: Cluster, h: History, a: Marks, step: Step, q: Packet)
    requires AckInv(n, c, h, a) && Enabled(n, c, step) && FreshVote(n, c, step) && Fifo(n, c, step)
    ensures q in Taken(c, step) && q.dst == Actor(step) && q.msg.AppendEntries?
            && q.msg.term == Effect(n, c, step).node.term ==>
              AheadOf(NextMarks(n, c, a, step), q.msg.term, q.dst, Total(q.msg), q.msg.leaderCommit)
  {
    AcceptedBehind(n, c, h, a, step, q);
    if q in Taken(c, step) && q.dst == Actor(step) && q.msg.AppendEntries? {
      assert MessageOk(n, h, q.src, q.dst, q.msg) && MessageMarked(h, a, q.src, q.dst, q.msg);
      EffectKept(n, c, h, step);
      LeaderHearsNone(n, q.dst, Effect(n, c, step).node, h, NextHistory(n, c, h, step), q.src, q.msg);
      hide Effect;
    }
  }

  lemma {:induction false} NetMarked(n: int, c: Cluster, h: History, a: Marks, step: Step, p: Packet)
    requires AckInv(n, c, h, a) && Enabled(n, c, step)
    requires FreshVote(n, c, step) && FreshAck(n, c, step) && Fifo(n, c, step)
    requires p in Apply(n, c, step).net
    ensures MessageMarked(NextHistory(n, c, h, step), NextMarks(n, c, a, step), p.src, p.dst, p.msg)
  {
    var s' := Effect(n, c, step).node;
    if p in Taken(c, step) {
      EffectKept(n, c, h, step);
      NodeMoves(n, c, h, a, step);
      if p.msg.AppendEntries? && p.dst == Actor(step) && p.msg.term == s'.term {
        StillAhead(n, c, h, a, step, p);
      }
      MessageMarkedExtends(h, NextHistory(n, c, h, step), a, NextMarks(n, c, a, step),
                           Key(s'.term, Actor(step)), p.src, p.dst, p.msg);
    } else {
      Stamped(Actor(step), c.nextId, Effect(n, c, step).sends, p);
      SendMarked(n, c, h, a, step, Send(p.dst, p.msg));
    }
  }

  lemma {:induction false} NodesMarked(n: int, c: Cluster, h: History, a: Marks, step: Step, j: int)
    requires AckInv(n, c, h, a) && Enabled(n, c, step) && FreshVote(n, c, step) && FreshAck(n, c, step)
    requires 0 <= j < n
    ensures NodeMarked(n, j, Apply(n, c, step).nodes[j], NextHistory(n, c, h, step), NextMarks(n, c, a, step))
  {
    var i := Actor(step);
    NodeMoves(n, c, h, a, step);
    if j != i {
      EffectKept(n, c, h, step);
      NodeMarkedExtends(n, j, c.nodes[j], h, NextHistory(n, c, h, step), a, NextMarks(n, c, a, step),
                        Key(Effect(n, c, step).node.term, i));
    }
  }

  lemma {:induction false} QueueMarked(n: int, c: Cluster, h: History, a: Marks, step: Step, j: int, p: Packet)
    requires AckInv(n, c, h, a) && Enabled(n, c, step) && FreshVote(n, c, step) && FreshAck(n, c, step)
    requires 0 <= j < n && p in Apply(n, c, step).nodes[j].queue
    ensures MessageMarked(NextHistory(n, c, h, step), NextMarks(n, c, a, step), p.src, j, p.msg)
  {
    var s := Before(c, step);
    var s' := Effect(n, c, step).node;
    var h' := NextHistory(n, c, h, step);
    var a' := NextMarks(n, c, a, step);
    EffectKept(n, c, h, step);
    NodeMoves(n, c, h, a, step);
    QueueAfter(n, c, step);
    assert MessageMarked(h, a, p.src, j, p.msg);
    if j == Actor(step) && p.msg.AppendEntries? && p.msg.term == s'.term {
      QueuedIsOld(n, c, h, step, p);
      LeaderHearsNone(n, j, s', h, h', p.src, p.msg);
      if Accepted(s, Handling(c, step)) {
        AcceptedQueueEmpty(n, c, step);
      }
      assert a' == a;
    }
    MessageMarkedExtends(h, h', a, a', Key(s'.term, Actor(step)), p.src, j, p.msg);
  }

  lemma {:induction false} QueuedIsOld(n: int, c: Cluster, h: History, step: Step, p: Packet)
    requires BaseInv(n, c, h) && Enabled(n, c, step) && Ordered(n, c)
    requires p in Effect(n, c, step).node.queue
    ensures MessageOk(n, h, p.src, Actor(step), p.msg)
  {
    QueueAfter(n, c, step);
    assert NodeOk(n, Actor(step), c.nodes[Actor(step)], h);
  }

  // ---------------------------------------------------------------- acknowledgements on their way

  lemma {:induction false} NewAckAhead(n: int, c: Cluster, h: History, a: Marks, step: Step, snd: Send)
    requires AckInv(n, c, h, a) && Enabled(n, c, step)
    requires snd in Effect(n, c, step).sends && snd.msg.AppendEntriesResponse? && snd.msg.success
    requires 0 <= snd.dst < n
    ensures snd.dst != Actor(step)
    ensures var l := c.nodes[snd.dst];
            l.role == Leader && l.term == snd.msg.term && |l.matchIndex| == n
            ==> l.matchIndex[Actor(step)] < snd.msg.newIndex
  {
    AcksSent(n, c, step, snd);
    ReadyToMove(n, c, h, a, step);
    assert NodeMarked(n, snd.dst, c.nodes[snd.dst], h, a);
    assert NodeOk(n, snd.dst, c.nodes[snd.dst], h);
  }

  lemma {:induction false} LeaderAckAhead(n: int, i: int, s: NodeState, p: Option<Packet>, s': NodeState, h: History,
                                        q: Packet)
    requires Shaped(n, i, s) && Moved(n, i, s, p, s') && s'.role == Leader
    requires MessageOk(n, h, q.src, i, q.msg) && q.msg.AppendEntriesResponse? && q.msg.success && q.msg.term == s'.term
    requires s.role == Leader && s.term == q.msg.term ==> s.matchIndex[q.src] < q.msg.newIndex
    requires AckFrom(p, q.src) && s.role == Leader ==> p.value.msg.newIndex <= q.msg.newIndex
    ensures s'.matchIndex[q.src] < q.msg.newIndex
  {
  }

  /** A response still on its way to the acting node stays ahead of what the node, as leader, then knows. */
  lemma {:induction false} OldAckAhead(n: int, c: Cluster, h: History, a: Marks, step: Step, q: Packet)
    requires AckInv(n, c, h, a) && Enabled(n, c, step) && FreshAck(n, c, step) && Fifo(n, c, step)
    requires q in Taken(c, step) && q.dst == Actor(step) && q.msg.AppendEntriesResponse? && q.msg.success
    requires Effect(n, c, step).node.role == Leader && Effect(n, c, step).node.term == q.msg.term
    ensures AckAhead(Apply(n, c, step), q)
  {
    var (s, p, s') := (Before(c, step), Handling(c, step), Effect(n, c, step).node);
    assert AckAhead(c, q) && MessageOk(n, h, q.src, q.dst, q.msg);
    EffectMoves(n, c, step);
    if AckFrom(p, q.src) && s.role == Leader {
      BoundsReady(n, c, step);
      HandledPrecedes(n, c, step, q);
      LeaderComesFrom(n, q.dst, s, p, s');
    }
    LeaderAckAhead(n, q.dst, s, p, s', h, q);
    hide Effect;
  }

  lemma {:induction false} AheadKept(n: int, c: Cluster, h: History, a: Marks, step: Step, q: Packet)
    requires AckInv(n, c, h, a) && Enabled(n, c, step)
    requires FreshVote(n, c, step) && FreshAck(n, c, step) && Fifo(n, c, step)
    requires q in Apply(n, c, step).net
    ensures AckAhead(Apply(n, c, step), q)
  {
    var (i, s') := (Actor(step), Effect(n, c, step).node);
    if q.msg.AppendEntriesResponse? && q.msg.success && 0 <= q.dst < n {
      if q !in Taken(c, step) {
        Stamped(i, c.nextId, Effect(n, c, step).sends, q);
        NewAckAhead(n, c, h, a, step, Send(q.dst, q.msg));
      } else if q.dst == i && s'.role == Leader && s'.term == q.msg.term {
        OldAckAhead(n, c, h, a, step, q);
      } else {
        assert AckAhead(c, q);
      }
    }
    hide Effect;
  }

  // ---------------------------------------------------------------- whole steps and runs

  lemma {:induction false} AckStepKept(n: int, c: Cluster, h: History, a: Marks, step: Step)
    requires AckInv(n, c, h, a) && Enabled(n, c, step)
    requires FreshVote(n, c, step) && FreshAck(n, c, step) && Fifo(n, c, step)
    ensures AckInv(n, Apply(n, c, step), NextHistory(n, c, h, step), NextMarks(n, c, a, step))
  {
    var c' := Apply(n, c, step);
    var h' := NextHistory(n, c, h, step);
    var a' := NextMarks(n, c, a, step);
    ShapeStepKept(n, c, h, step);
    NodeMoves(n, c, h, a, step);
    OrderedKept(n, c, h, a, step);
    forall j | 0 <= j < n ensures NodeMarked(n, j, c'.nodes[j], h', a') {
      NodesMarked(n, c, h, a, step, j);
    }
    forall j, p | 0 <= j < n && p in c'.nodes[j].queue ensures MessageMarked(h', a', p.src, j, p.msg) {
      QueueMarked(n, c, h, a, step, j, p);
    }
    forall p | p in c'.net ensures MessageMarked(h', a', p.src, p.dst, p.msg) && AckAhead(c', p) {
      NetMarked(n, c, h, a, step, p);
      AheadKept(n, c, h, a, step, p);
    }
  }

  /** Histories and marks for each state of the run. */
  ghost predicate Chronicle(n: int, r: Run, hs: seq<History>, ms: seq<Marks>) {
    && Records(n, r, hs)
    && |ms| == |r.states|
    && ms[0] == map[]
    && forall k {:trigger MarksStep(n, r, ms, k)} | 0 <= k < |r.steps| :: MarksStep(n, r, ms, k)
  }

  ghost predicate MarksStep(n: int, r: Run, ms: seq<Marks>, k: int)
    requires 0 <= k < |r.steps| && |r.states| == |r.steps| + 1 && k + 1 < |ms|
  {
    StepsTo(n, r, k) && ms[k + 1] == NextMarks(n, r.states[k], ms[k], r.steps[k])
  }

  lemma {:induction false} SameMarksStep(n: int, r: Run, ms: seq<Marks>, longer: seq<Marks>, j: nat)
    requires j < |r.steps| && |r.states| == |r.steps| + 1 && j + 1 < |ms| && j + 1 < |longer|
    requires MarksStep(n, r, ms, j) && longer[j] == ms[j] && longer[j + 1] == ms[j + 1]
    ensures MarksStep(n, r, longer, j)
  {
  }

  lemma {:induction false} MoreMarks(n: int, r: Run, ms: seq<Marks>, k: nat) returns (longer: seq<Marks>)
    requires IsRun(n, r) && k < |r.steps| && |ms| == k + 1
    requires forall j {:trigger MarksStep(n, r, ms, j)} | 0 <= j < k :: MarksStep(n, r, ms, j)
    ensures |longer| == k + 2 && longer[0] == ms[0]
    ensures forall j {:trigger MarksStep(n, r, longer, j)} | 0 <= j <= k :: MarksStep(n, r, longer, j)
  {
    assert StepsTo(n, r, k);
    longer := ms + [NextMarks(n, r.states[k], ms[k], r.steps[k])];
    assert MarksStep(n, r, longer, k);
    hide IsRun, StepsTo, NextMarks, MarksStep;
    forall j | 0 <= j <= k ensures MarksStep(n, r, longer, j) {
      if j < k {
        SameMarksStep(n, r, ms, longer, j);
      }
    }
  }

  lemma {:induction false} WriteChronicle(n: int, r: Run) returns (hs: seq<History>, ms: seq<Marks>)
    requires IsRun(n, r)
    ensures Chronicle(n, r, hs, ms)
  {
    hs := WriteHistory(n, r);
    ms := [map[]];
    var k := 0;
    hide MarksStep, Records;
    while k < |r.steps|
      invariant 0 <= k <= |r.steps| && |ms| == k + 1 && ms[0] == map[]
      invariant forall j {:trigger MarksStep(n, r, ms, j)} | 0 <= j < k :: MarksStep(n, r, ms, j)
    {
      ms := MoreMarks(n, r, ms, k);
      k := k + 1;
    }
  }

  lemma {:induction false} AckStarts(n: int, r: Run, hs: seq<History>, ms: seq<Marks>)
    requires Chronicle(n, r, hs, ms) && FreshVotes(n, r) && FreshAcks(n, r)
    ensures AckInv(n, r.states[0], hs[0], ms[0])
  {
    ShapeHolds(n, r, hs, 0);
    hide ShapeInv;
  }

  lemma {:induction false} AckHolds(n: int, r: Run, hs: seq<History>, ms: seq<Marks>, k: nat)
    requires Chronicle(n, r, hs, ms)
    requires IsRun(n, r) && FreshVotes(n, r) && FreshAcks(n, r) && FifoRun(n, r) && k < |r.states|
    ensures AckInv(n, r.states[k], hs[k], ms[k])
  {
    hide AckInv;
    if k > 0 {
      assert RecordsStep(n, r, hs, k - 1) && MarksStep(n, r, ms, k - 1);
      AckHolds(n, r, hs, ms, k - 1);
      AckStepKept(n, r.states[k - 1], hs[k - 1], ms[k - 1], r.steps[k - 1]);
    } else {
      AckStarts(n, r, hs, ms);
    }
  }
}
