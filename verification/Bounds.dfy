/**
  With fresh acknowledgements alone, indices stay inside logs: the source's assertions never fire.
  Nothing is recorded beside the cluster. A message of term t that tells how long the leader's log is finds that
  leader past t, or still leading t with at least that much.
 */
module Bounds {
  import opened Types
  import opened NodeSpec
  import opened Clusters
  import opened Sends
  import opened Moves
  import opened Terms

  ghost predicate LedTo(s: NodeState, t: int, length: int) {
    s.term > t || (s.term == t && s.role == Leader && |s.log| >= length)
  }

  ghost predicate AppendBound(m: Message)
    requires m.AppendEntries?
  {
    && m.prevLogIndex >= -1 && (m.prevLogIndex >= 0 ==> m.prevLogTerm >= 1)
    && -1 <= m.leaderCommit < Total(m)
    && (forall x | 0 <= x < |m.entries| :: m.entries[x].index == m.prevLogIndex + 1 + x)
  }

  ghost predicate PacketBound(nodes: seq<NodeState>, p: Packet) {
    && PacketClimbs(|nodes|, p)
    && (p.msg.AppendEntries? ==> AppendBound(p.msg) && LedTo(nodes[p.src], p.msg.term, Total(p.msg)))
    && (p.msg.AppendEntriesResponse? && p.msg.success ==> LedTo(nodes[p.dst], p.msg.term, p.msg.newIndex))
  }

  /** A leader knows of nothing beyond its own log. */
  ghost predicate LeaderBound(s: NodeState) {
    && (forall f | 0 <= f < |s.matchIndex| :: s.matchIndex[f] < |s.log|)
    && (forall f | 0 <= f < |s.nextIndex| :: s.nextIndex[f] <= |s.log|)
  }

  ghost predicate NodeBound(s: NodeState) {
    -1 <= s.commitIndex < |s.log| && (s.role == Leader ==> LeaderBound(s))
  }

  ghost predicate BoundsInv(n: int, c: Cluster) {
    && TermsInv(n, c)
    && (forall i {:trigger NodeBound(c.nodes[i])} | 0 <= i < n :: NodeBound(c.nodes[i]))
    && (forall i, p | 0 <= i < n && p in c.nodes[i].queue :: p.dst == i && PacketBound(c.nodes, p))
    && (forall p | p in c.net :: PacketBound(c.nodes, p))
  }

  // ---------------------------------------------------------------- the acting node

  /** The node and the message of a step, before it. */
  lemma {:induction false} BoundsReady(n: int, c: Cluster, step: Step)
    requires BoundsInv(n, c) && Enabled(n, c, step)
    ensures NodeBound(Before(c, step)) && NextBound(Before(c, step))
    ensures Handling(c, step).Some? ==>
              Handling(c, step).value.dst == Actor(step) && PacketBound(c.nodes, Handling(c, step).value)
  {
    assert NodeBound(c.nodes[Actor(step)]) && NodeClimbs(n, Actor(step), c.nodes[Actor(step)]);
    if step.Resume? {
      assert c.nodes[step.i].queue[0] in c.nodes[step.i].queue;
    }
  }

  /** What a success response that a leader handles tells it is inside its log. */
  ghost predicate AckBound(s: NodeState, p: Option<Packet>) {
    s.role == Leader && p.Some? && p.value.msg.AppendEntriesResponse? && p.value.msg.success
    && p.value.msg.term <= s.term
    ==> 0 <= p.value.msg.newIndex <= |s.log|
  }

  lemma {:induction false} FreshAckBound(n: int, c: Cluster, step: Step)
    requires BoundsInv(n, c) && Enabled(n, c, step) && FreshAck(n, c, step)
    ensures AckBound(Before(c, step), Handling(c, step))
  {
    BoundsReady(n, c, step);
  }

  lemma {:induction false} MovedBound(n: int, i: int, s: NodeState, p: Option<Packet>, s': NodeState)
    requires Shaped(n, i, s) && NodeBound(s) && Moved(n, i, s, p, s') && AckBound(s, p)
    requires p.Some? && p.value.msg.AppendEntries? ==> AppendBound(p.value.msg)
    ensures -1 <= s'.commitIndex < |s'.log| && (s'.role == Leader ==> LeaderBound(s'))
  {
  }

  lemma {:induction false} EffectBound(n: int, c: Cluster, step: Step)
    requires BoundsInv(n, c) && Enabled(n, c, step) && FreshAck(n, c, step)
    ensures NodeBound(Effect(n, c, step).node)
  {
    var (i, s, p) := (Actor(step), Before(c, step), Handling(c, step));
    BoundsReady(n, c, step);
    FreshAckBound(n, c, step);
    EffectMoves(n, c, step);
    MovedBound(n, i, s, p, Effect(n, c, step).node);
  }

  /** A leader stays leader, with no less, until its term passes. */
  lemma {:induction false} LedToMoves(n: int, i: int, s: NodeState, p: Option<Packet>, s': NodeState, t: int,
                                      length: int)
    requires Moved(n, i, s, p, s') && LedTo(s, t, length)
    ensures LedTo(s', t, length)
  {
  }

  lemma {:induction false} PacketStays(n: int, c: Cluster, step: Step, p: Packet)
    requires BoundsInv(n, c) && Enabled(n, c, step) && PacketBound(c.nodes, p)
    ensures PacketBound(Apply(n, c, step).nodes, p)
  {
    var (i, s, h, s') := (Actor(step), Before(c, step), Handling(c, step), Effect(n, c, step).node);
    EffectMoves(n, c, step);
    hide Effect;
    if p.msg.AppendEntries? && p.src == i {
      LedToMoves(n, i, s, h, s', p.msg.term, Total(p.msg));
    } else if p.msg.AppendEntriesResponse? && p.msg.success && p.dst == i {
      LedToMoves(n, i, s, h, s', p.msg.term, p.msg.newIndex);
    }
  }

  // ---------------------------------------------------------------- what it sends

  /** A leader that a step ends with has not committed less than before. */
  lemma {:induction false} LeaderCommitGrows(n: int, c: Cluster, step: Step)
    requires Enabled(n, c, step) && Effect(n, c, step).node.role == Leader
    ensures Before(c, step).commitIndex <= Effect(n, c, step).node.commitIndex
  {
    EffectMoves(n, c, step);
    hide Effect;
  }

  lemma {:induction false} SentBound(n: int, i: int, c: int, s: NodeState, snd: Send)
    requires Shaped(n, i, s) && NodeClimbs(n, i, s) && NodeBound(s) && -1 <= c <= s.commitIndex
    requires SentAppend(n, i, c, s, snd)
    ensures AppendBound(snd.msg) && snd.msg.term == s.term && Total(snd.msg) == |s.log|
  {
  }

  /** Every append that a step sends carries the whole rest of the sender's log. */
  lemma {:induction false} AppendsBound(n: int, c: Cluster, step: Step, snd: Send)
    requires BoundsInv(n, c) && Enabled(n, c, step) && FreshAck(n, c, step)
    requires snd in Effect(n, c, step).sends && snd.msg.AppendEntries?
    ensures var s' := Effect(n, c, step).node;
            && SentAppend(n, Actor(step), Before(c, step).commitIndex, s', snd)
            && AppendBound(snd.msg) && s'.role == Leader && snd.msg.term == s'.term && Total(snd.msg) == |s'.log|
  {
    BoundsReady(n, c, step);
    EffectSends(n, c, step);
    EffectBound(n, c, step);
    EffectClimbs(n, c, step);
    LeaderCommitGrows(n, c, step);
    SentBound(n, Actor(step), Before(c, step).commitIndex, Effect(n, c, step).node, snd);
  }

  /** A success response answers the append that the step accepted. */
  lemma {:induction false} AcksSent(n: int, c: Cluster, step: Step, snd: Send)
    requires BoundsInv(n, c) && Enabled(n, c, step)
    requires snd in Effect(n, c, step).sends && snd.msg.AppendEntriesResponse? && snd.msg.success
    ensures Accepted(Before(c, step), Handling(c, step))
    ensures var p := Handling(c, step).value;
            snd == Send(p.src, AppendEntriesResponse(p.msg.term, true, Total(p.msg)))
  {
    var (i, s) := (Actor(step), Before(c, step));
    BoundsReady(n, c, step);
    match step {
      case Deliver(p) => if !s.crashed { ReceiveAcks(n, i, s, p, snd); }
      case Resume(_) => ReceiveAcks(n, i, s, Handling(c, step).value, snd);
      case Timeout(_) => EnterSends(n, i, Leave(n, s, if s.role == Follower then Some(Candidate) else None));
      case Recovery(_) => EnterSends(n, i, s.(crashed := false));
      case _ =>
    }
  }

  lemma {:induction false} NewPacketBound(n: int, c: Cluster, step: Step, p: Packet)
    requires BoundsInv(n, c) && Enabled(n, c, step) && FreshAck(n, c, step)
    requires p in Stamp(Actor(step), c.nextId, Effect(n, c, step).sends)
    ensures PacketBound(Apply(n, c, step).nodes, p)
  {
    var (s, s') := (Before(c, step), Effect(n, c, step).node);
    var snd := Send(p.dst, p.msg);
    Stamped(Actor(step), c.nextId, Effect(n, c, step).sends, p);
    BoundsReady(n, c, step);
    TermsStepKept(n, c, step);
    assert p in Apply(n, c, step).net;
    if p.msg.AppendEntries? {
      AppendsBound(n, c, step, snd);
    } else if p.msg.AppendEntriesResponse? && p.msg.success {
      AcksSent(n, c, step, snd);
      PacketStays(n, c, step, Handling(c, step).value);
    }
    hide Effect;
  }

  // ---------------------------------------------------------------- whole steps and runs

  lemma {:induction false} BoundsStepKept(n: int, c: Cluster, step: Step)
    requires BoundsInv(n, c) && Enabled(n, c, step) && FreshAck(n, c, step)
    ensures BoundsInv(n, Apply(n, c, step))
  {
    var c' := Apply(n, c, step);
    TermsStepKept(n, c, step);
    EffectBound(n, c, step);
    forall p | p in c'.net ensures PacketBound(c'.nodes, p) {
      if p in c.net {
        PacketStays(n, c, step, p);
      } else {
        NewPacketBound(n, c, step, p);
      }
    }
    forall i, p | 0 <= i < n && p in c'.nodes[i].queue ensures p.dst == i && PacketBound(c'.nodes, p) {
      if i == Actor(step) {
        QueueFrom(n, c, step, p);
        BoundsReady(n, c, step);
      }
      PacketStays(n, c, step, p);
    }
    forall i | 0 <= i < n ensures NodeBound(c'.nodes[i]) {
      assert i != Actor(step) ==> NodeBound(c.nodes[i]);
    }
  }

  lemma {:induction false} BoundsHold(n: int, r: Run, k: nat)
    requires IsRun(n, r) && FreshAcks(n, r) && k < |r.states|
    ensures BoundsInv(n, r.states[k])
  {
    if k == 0 {
      TermsHold(n, r, 0);
    } else {
      assert StepsTo(n, r, k - 1);
      BoundsHold(n, r, k - 1);
      BoundsStepKept(n, r.states[k - 1], r.steps[k - 1]);
    }
  }

  // ---------------------------------------------------------------- theorems

  /** In every state of a run with fresh acknowledgements, every node's indices are inside its log. */
  lemma {:induction false} IndicesInside(n: int, r: Run, k: nat, i: int)
    requires IsRun(n, r) && FreshAcks(n, r) && k < |r.states| && 0 <= i < |r.states[k].nodes|
    ensures var s := r.states[k].nodes[i];
            && Shaped(n, i, s)
            && -1 <= s.commitIndex < |s.log|
            && (forall x | 0 <= x < |s.log| :: s.log[x].index == x && 1 <= s.log[x].term <= s.term)
            && (s.role == Leader ==>
                  forall f | 0 <= f < n :: s.matchIndex[f] < |s.log| && 0 <= s.nextIndex[f] <= |s.log|)
  {
    BoundsHold(n, r, k);
    LogTermsClimb(n, r, k, i);
    assert NodeBound(r.states[k].nodes[i]);
  }

  /** A leader meets a rejection, not of a later term, when nextIndex for the sender is already 0. */
  predicate RejectionAtZero(s: NodeState, p: Packet) {
    && s.role == Leader && p.msg.AppendEntriesResponse? && !p.msg.success && p.msg.term <= s.term
    && 0 <= p.src < |s.nextIndex| && s.nextIndex[p.src] == 0
  }

  /** The commit loop of a leader stops below the end of its log. */
  lemma {:induction false} CommitStaysInside(n: int, i: int, s: NodeState)
    requires Shaped(n, i, s) && -1 <= s.commitIndex < |s.log| && LeaderBound(s)
    ensures DefinedCommit(n, i, s)
  {
    CommitTargetReached(n, i, s.matchIndex, s.commitIndex);
    var r := CommitTarget(n, i, s.matchIndex, s.commitIndex);
    if r > s.commitIndex {
      var m := Matched(n, i, s.matchIndex, r);
      var others := m - {i};
      assert m <= others + {i};
      assert |others| >= 1;
      var v :| v in others;
    }
  }

  lemma {:induction false} DefinedWhenBound(n: int, i: int, s: NodeState, p: Packet)
    requires Shaped(n, i, s) && NodeBound(s) && NextBound(s) && 0 <= p.src < n && AckBound(s, Some(p))
    requires p.msg.AppendEntries? ==> AppendBound(p.msg)
    ensures Defined(n, i, s, p) <==> !RejectionAtZero(s, p)
  {
    if s.role == Leader && !StepsDown(s, p) && !RejectionAtZero(s, p) {
      var d := HandleAck(i, s, p).node;
      assert LeaderBound(d);
      CommitStaysInside(n, i, d);
    }
  }

  /** A message that node i could handle next: at the head of its queue, or in the network. */
  ghost predicate Deliverable(c: Cluster, i: int, p: Packet) {
    && 0 <= i < |c.nodes|
    && ((p in c.net && p.dst == i && c.nodes[i].queue == [])
        || (c.nodes[i].queue != [] && p == c.nodes[i].queue[0]))
  }

  /**
    In every state of such a run, handling a message is well defined (no failing assertion, no access outside a
    vector) exactly when it is not a rejection that finds nextIndex at 0. An acknowledgement at hand must be fresh.
   */
  lemma {:induction false} AssertionsNeverFire(n: int, r: Run, k: nat, i: int, p: Packet)
    requires IsRun(n, r) && FreshAcks(n, r) && k < |r.states|
    requires Deliverable(r.states[k], i, p)
    requires var s := r.states[k].nodes[i];
             s.role == Leader && p.msg.AppendEntriesResponse? && p.msg.success ==> p.msg.term >= s.term
    ensures var s := r.states[k].nodes[i];
            Shaped(n, i, s) && (Defined(n, i, s, p) <==> !RejectionAtZero(s, p))
  {
    BoundsHold(n, r, k);
    var (c, s) := (r.states[k], r.states[k].nodes[i]);
    assert NodeBound(s) && NodeClimbs(n, i, s);
    if p !in c.net {
      assert p in s.queue;
    }
    DefinedWhenBound(n, i, s, p);
  }
}
