/** Fresh votes and fresh acknowledgements together: every append is a true slice of its leader's log. */
module Shape {
  import opened Types
  import opened NodeSpec
  import opened Clusters
  import opened History
  import opened BaseRuns
  import opened Bounds

  /** The append is a slice of the leader's log and commits nothing beyond it. */
  ghost predicate MessageInside(h: History, m: Message) {
    m.AppendEntries? ==> m.term in h.lead && SliceOk(h, m) && -1 <= m.leaderCommit < Total(m)
  }

  ghost predicate NodeInside(s: NodeState, h: History) {
    NodeBound(s) && forall p | p in s.queue :: MessageInside(h, p.msg)
  }

  ghost predicate ShapeInv(n: int, c: Cluster, h: History) {
    && BaseInv(n, c, h)
    && BoundsInv(n, c)
    && (forall i | 0 <= i < n :: NodeInside(c.nodes[i], h))
    && (forall p | p in c.net :: MessageInside(h, p.msg))
  }

  /** An append that is within bounds was not built beyond the leader's log. */
  lemma {:induction false} PacketInside(n: int, h: History, nodes: seq<NodeState>, p: Packet)
    requires MessageOk(n, h, p.src, p.dst, p.msg) && PacketBound(nodes, p)
    ensures MessageInside(h, p.msg)
  {
  }

  lemma {:induction false} ShapeFollows(n: int, c: Cluster, h: History)
    requires BaseInv(n, c, h) && BoundsInv(n, c)
    ensures ShapeInv(n, c, h)
  {
    forall p | p in c.net ensures MessageInside(h, p.msg) {
      PacketInside(n, h, c.nodes, p);
    }
    forall i | 0 <= i < n ensures NodeInside(c.nodes[i], h) {
      assert NodeBound(c.nodes[i]) && NodeOk(n, i, c.nodes[i], h);
      forall p | p in c.nodes[i].queue ensures MessageInside(h, p.msg) {
        PacketInside(n, h, c.nodes, p);
      }
    }
  }

  lemma {:induction false} ShapeStepKept(n: int, c: Cluster, h: History, step: Step)
    requires ShapeInv(n, c, h) && Enabled(n, c, step) && FreshVote(n, c, step) && FreshAck(n, c, step)
    ensures ShapeInv(n, Apply(n, c, step), NextHistory(n, c, h, step))
  {
    BaseStepKept(n, c, h, step);
    BoundsStepKept(n, c, step);
    ShapeFollows(n, Apply(n, c, step), NextHistory(n, c, h, step));
  }

  lemma {:induction false} ShapeHolds(n: int, r: Run, hs: seq<History>, k: nat)
    requires Records(n, r, hs)
    requires IsRun(n, r) && FreshVotes(n, r) && FreshAcks(n, r) && k < |r.states|
    ensures ShapeInv(n, r.states[k], hs[k])
  {
    BaseHolds(n, r, hs, k);
    BoundsHold(n, r, k);
    ShapeFollows(n, r.states[k], hs[k]);
  }
}
