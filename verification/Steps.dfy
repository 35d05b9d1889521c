/** Which steps a run can go on with, and what becomes of the packets: nothing is lost, doubled or made up. */
module Steps {
  import opened Types
  import opened NodeSpec
  import opened Clusters
  import opened Terms
  import opened Bounds
  import opened DriverSpec
  import opened NodeFacts
  import opened Broadcasts
  import opened Order
  import opened Refinement

  // ---------------------------------------------------------------- what may happen next

  /** If the step has a leader handle a success response, the response is of the leader's term. */
  predicate NoOldAck(c: Cluster, step: Step)
    requires 0 <= Actor(step) < |c.nodes|
  {
    var (s, h) := (c.nodes[Actor(step)], Handling(c, step));
    h.Some? && s.role == Leader && h.value.msg.AppendEntriesResponse? && h.value.msg.success
    ==> h.value.msg.term >= s.term
  }

  lemma {:induction false} DefinedStill(n: int, i: int, s: NodeState, p: Packet)
    requires Shaped(n, i, s) && (s.queue != [] ==> s.role == Follower)
    ensures Defined(n, i, Still(s), p) <==> Defined(n, i, s, p)
  {
    assert s.queue == [] ==> Still(s) == s;
  }

  /**
    In every state of a run with fresh acknowledgements, every step that is offered can be taken, by a node of any role,
    but for a rejection that finds nextIndex at 0.
   */
  lemma {:induction false} EveryOfferIsTaken(n: int, r: Run, k: nat, step: Step)
    requires IsRun(n, r) && FreshAcks(n, r) && k < |r.states|
    requires Offered(r.states[k], step) && NoOldAck(r.states[k], step)
    ensures var (c, s) := (r.states[k], r.states[k].nodes[Actor(step)]);
            Enabled(n, c, step) <==>
              !(Handling(c, step).Some? && RejectionAtZero(s, Handling(c, step).value))
  {
    SameNodes(n, r, k);
    var (c, i) := (r.states[k], Actor(step));
    var s := c.nodes[i];
    StepsAreReactions(n, r, k, step);
    CrashedHasNoQueue(n, r, k, i);
    TermsHold(n, r, k);
    assert NodeClimbs(n, i, s);
    if Handling(c, step).Some? {
      QueueHoldsOne(n, r, k, i);
      AssertionsNeverFire(n, r, k, i, Handling(c, step).value);
      DefinedStill(n, i, s, Handling(c, step).value);
    }
    hide Enabled, Defined;
  }

  // ---------------------------------------------------------------- what becomes of a packet

  lemma {:induction false} LinedHolds(n: int, r: Run, k: nat)
    requires IsRun(n, r) && k < |r.states|
    ensures |r.states[k].nodes| == n && Lined(n, r.states[k])
  {
    SameNodes(n, r, k);
    if k > 0 {
      assert StepsTo(n, r, k - 1);
      SameNodes(n, r, k - 1);
      LinedHolds(n, r, k - 1);
      LinedKept(n, r.states[k - 1], r.steps[k - 1]);
      hide Lined;
    }
  }

  /** The packet made of the x-th message that is sent in step j. */
  ghost function PacketOf(n: int, r: Run, j: nat, x: nat): Packet
    requires IsRun(n, r) && j < |r.steps| && x < |SendsAt(n, r, j)|
  {
    var snd := SendsAt(n, r, j)[x];
    Packet(r.states[j].nextId + x, Actor(r.steps[j]), snd.dst, snd.msg)
  }

  lemma {:induction false} NewInNet(c: Cluster, step: Step, sends: seq<Send>, net: set<Packet>, q: Packet)
    requires net == Taken(c, step) + Stamp(Actor(step), c.nextId, sends)
    ensures q in net && q.id < c.nextId ==> q in c.net && step != Deliver(q)
    ensures q in c.net && step != Deliver(q) ==> q in net
  {
    if q in Stamp(Actor(step), c.nextId, sends) {
      Stamped(Actor(step), c.nextId, sends, q);
    }
  }

  /** A step changes the state of its node alone, and of the packets there were takes off only the one it delivers. */
  lemma {:induction false} OneNodeActs(n: int, r: Run, k: nat, i: int, q: Packet)
    requires IsRun(n, r) && k < |r.steps| && NodeIn(r, k, i)
    ensures NodeIn(r, k + 1, i) && (i != Actor(r.steps[k]) ==> r.states[k + 1].nodes[i] == r.states[k].nodes[i])
    ensures q.id < r.states[k].nextId ==>
              (q in r.states[k + 1].net <==> q in r.states[k].net && r.steps[k] != Deliver(q))
    ensures r.states[k + 1].nextId == r.states[k].nextId + |SendsAt(n, r, k)|
  {
    assert StepsTo(n, r, k);
    NewInNet(r.states[k], r.steps[k], Effect(n, r.states[k], r.steps[k]).sends, r.states[k + 1].net, q);
    hide Effect, Enabled;
  }

  lemma {:induction false} IdsGrow(n: int, r: Run, j: nat, k: nat)
    requires IsRun(n, r) && j <= k < |r.states|
    ensures r.states[j].nextId <= r.states[k].nextId
  {
    if j < k {
      IdsGrow(n, r, j, k - 1);
      assert StepsTo(n, r, k - 1);
    }
  }

  /** No step after j and before k delivers q. */
  ghost predicate Undelivered(r: Run, j: nat, k: nat, q: Packet) {
    forall m {:trigger r.steps[m]} | j < m < k && m < |r.steps| :: r.steps[m] != Deliver(q)
  }

  lemma {:induction false} UndeliveredStep(r: Run, j: nat, k: nat, q: Packet)
    requires j < k < |r.steps|
    ensures Undelivered(r, j, k + 1, q) <==> Undelivered(r, j, k, q) && r.steps[k] != Deliver(q)
  {
  }

  lemma {:induction false} StaysUntil(n: int, r: Run, j: nat, k: nat, q: Packet)
    requires IsRun(n, r) && j < k < |r.states| && q in r.states[j + 1].net && q.id < r.states[j + 1].nextId
    ensures q in r.states[k].net <==> Undelivered(r, j, k, q)
    decreases k
  {
    if k > j + 1 {
      StaysUntil(n, r, j, k - 1, q);
      IdsGrow(n, r, j + 1, k - 1);
      SameNodes(n, r, k - 1);
      OneNodeActs(n, r, k - 1, 0, q);
      UndeliveredStep(r, j, k - 1, q);
      hide Undelivered, IsRun;
    }
  }

  /**
    In any run, each message that is sent makes one packet, and that packet is on its way from the step that sends it
    until the step that delivers it, and never again.
   */
  lemma {:induction false} OnItsWayUntilDelivered(n: int, r: Run, j: nat, x: nat, k: nat)
    requires IsRun(n, r) && j < |r.steps| && x < |SendsAt(n, r, j)| && j < k < |r.states|
    ensures PacketOf(n, r, j, x) in r.states[k].net <==> Undelivered(r, j, k, PacketOf(n, r, j, x))
  {
    SameNodes(n, r, j);
    SentInNet(n, r, j, x);
    OneNodeActs(n, r, j, 0, PacketOf(n, r, j, x));
    StaysUntil(n, r, j, k, PacketOf(n, r, j, x));
    hide Undelivered, IsRun;
  }

  /** In any run no packet is delivered twice. */
  lemma {:induction false} DeliveredOnce(n: int, r: Run, j: nat, k: nat, q: Packet)
    requires IsRun(n, r) && j < k < |r.steps| && r.steps[j] == Deliver(q)
    ensures r.steps[k] != Deliver(q)
  {
    LinedHolds(n, r, j);
    assert StepsTo(n, r, j);
    GoneForGood(n, r, j + 1, k, q);
    assert StepsTo(n, r, k);
  }

  lemma {:induction false} GoneForGood(n: int, r: Run, j: nat, k: nat, q: Packet)
    requires IsRun(n, r) && j <= k < |r.states| && q !in r.states[j].net && q.id < r.states[j].nextId
    ensures q !in r.states[k].net
  {
    if j < k {
      GoneForGood(n, r, j, k - 1, q);
      IdsGrow(n, r, j, k - 1);
      SameNodes(n, r, k - 1);
      OneNodeActs(n, r, k - 1, 0, q);
    }
  }
}
