/** Which packets of one sender to one receiver come first, and how FIFO channels keep it so. */
module Order {
  import opened Types
  import opened NodeSpec
  import opened Clusters
  import opened Terms
  import opened Moves

  /** Packets are numbered as they are sent; a queue holds one message at most, and only on a follower. */
  ghost predicate Lined(n: int, c: Cluster)
    requires |c.nodes| == n
  {
    && (forall p | p in c.net :: p.id < c.nextId)
    && (forall p, q | p in c.net && q in c.net && p.id == q.id :: p == q)
    && (forall i | 0 <= i < n :: |c.nodes[i].queue| <= 1)
    && (forall i | 0 <= i < n && c.nodes[i].queue != [] :: c.nodes[i].role == Follower)
  }

  /** Packet p was sent before q by the same node to the same node, and is on its way or put back there. */
  ghost predicate Precedes(c: Cluster, p: Packet, q: Packet) {
    && q in c.net && p.src == q.src && p.dst == q.dst && 0 <= q.dst < |c.nodes|
    && ((p in c.net && p.id < q.id) || p in c.nodes[q.dst].queue)
  }

  /** The message handled came before the others of its sender that are still on their way. */
  lemma {:induction false} HandledPrecedes(n: int, c: Cluster, step: Step, q: Packet)
    requires Enabled(n, c, step) && Lined(n, c) && Fifo(n, c, step)
    requires Handling(c, step).Some? && Handling(c, step).value.dst == Actor(step)
    requires q in Taken(c, step) && q.dst == Actor(step) && q.src == Handling(c, step).value.src
    ensures Precedes(c, Handling(c, step).value, q)
  {
    match step {
      case Deliver(p) => assert p.id != q.id;
      case Resume(i) => assert c.nodes[i].queue[0] in c.nodes[i].queue;
      case _ =>
    }
  }

  /** After a step, the acting node's queue holds at most the message it has just handled. */
  lemma {:induction false} QueueAfter(n: int, c: Cluster, step: Step)
    requires Enabled(n, c, step) && Lined(n, c)
    ensures |Effect(n, c, step).node.queue| <= 1
    ensures Effect(n, c, step).node.queue != [] ==> Effect(n, c, step).node.role == Follower
    ensures forall p | p in Effect(n, c, step).node.queue ::
              p in c.nodes[Actor(step)].queue || (Handling(c, step) == Some(p) && step == Deliver(p))
  {
    var (i, s) := (Actor(step), Before(c, step));
    if Handling(c, step).Some? {
      ReceiveQueue(n, i, s, Handling(c, step).value);
      hide Receive;
    }
  }

  lemma {:induction false} StampIds(old_: set<Packet>, kept: set<Packet>, i: int, id: int, sends: seq<Send>,
                                    net: set<Packet>)
    requires kept <= old_ && net == kept + Stamp(i, id, sends)
    requires forall p | p in old_ :: p.id < id
    requires forall p, q | p in old_ && q in old_ && p.id == q.id :: p == q
    ensures forall p | p in net :: p.id < id + |sends|
    ensures forall p, q | p in net && q in net && p.id == q.id :: p == q
  {
    forall p | p in net ensures p.id < id + |sends| && (p.id >= id <==> p in Stamp(i, id, sends)) {
      if p in Stamp(i, id, sends) {
        Stamped(i, id, sends, p);
      }
    }
    forall p, q | p in net && q in net && p.id == q.id ensures p == q {
      if p in Stamp(i, id, sends) {
        StampedOnce(i, id, sends, p, q);
      }
    }
  }

  lemma {:induction false} LinedKept(n: int, c: Cluster, step: Step)
    requires Enabled(n, c, step) && Lined(n, c)
    ensures Lined(n, Apply(n, c, step))
  {
    QueueAfter(n, c, step);
    StampIds(c.net, Taken(c, step), Actor(step), c.nextId, Effect(n, c, step).sends, Apply(n, c, step).net);
  }

  /**
    A pair in order after a step was in order before it, or its later packet is new and its earlier one was on its
    way, put back, or is new as well.
   */
  lemma {:induction false} PrecedesBefore(n: int, c: Cluster, step: Step, p: Packet, q: Packet)
    requires Enabled(n, c, step) && Lined(n, c) && Fifo(n, c, step)
    requires Handling(c, step).Some? ==> Handling(c, step).value.dst == Actor(step)
    requires Precedes(Apply(n, c, step), p, q)
    ensures var sent := Stamp(Actor(step), c.nextId, Effect(n, c, step).sends);
            Precedes(c, p, q) || (q in sent && (p in sent || p in c.net || p in c.nodes[q.dst].queue))
  {
    var (i, sends) := (Actor(step), Effect(n, c, step).sends);
    QueueAfter(n, c, step);
    if q in Taken(c, step) {
      if p in Stamp(i, c.nextId, sends) {
        Stamped(i, c.nextId, sends, p);
      }
      if p in Apply(n, c, step).nodes[q.dst].queue && p !in c.nodes[q.dst].queue {
        HandledPrecedes(n, c, step, q);
      }
    }
    hide Effect;
  }

  lemma {:induction false} AcceptQueue(n: int, i: int, s: NodeState, p: Packet)
    requires Shaped(n, i, s) && Defined(n, i, s, p) && Accepted(s, Some(p))
    ensures Receive(n, i, s, p).node.queue == s.queue
  {
  }

  /** A node that accepts an append has no message put back. */
  lemma {:induction false} AcceptedQueueEmpty(n: int, c: Cluster, step: Step)
    requires Enabled(n, c, step) && Lined(n, c) && Accepted(Before(c, step), Handling(c, step))
    ensures Effect(n, c, step).node.queue == []
  {
    AcceptQueue(n, Actor(step), Before(c, step), Handling(c, step).value);
    hide Receive;
  }
}
