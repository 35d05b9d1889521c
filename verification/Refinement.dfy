/** A run of the cluster is, at each of its nodes, what the driver does with the events that reach the node. */
module Refinement {
  import opened Types
  import opened NodeSpec
  import opened Clusters
  import opened DriverSpec
  import opened NodeFacts
  import N = Nodes

  /** The events that reach node i in the first k steps. */
  ghost function Feed(r: Run, k: nat, i: int): seq<Event>
    requires k <= |r.steps|
  {
    if k == 0 then []
    else Feed(r, k - 1, i)
         + if Actor(r.steps[k - 1]) == i && !r.steps[k - 1].Resume? then [EventOf(r.steps[k - 1])] else []
  }

  function EventOf(step: Step): Event {
    match step
    case Deliver(p) => Arrives(p)
    case Timeout(_) => Silence
    case Crash(_) => CrashCommand
    case Recovery(_) => RecoverCommand
    case ClientRequest(_, cmd, clientId) => ClientCommand(cmd, clientId)
    case Resume(_) => Silence
  }

  /** What node i sends in the first k steps. */
  ghost function Sent(n: int, r: Run, k: nat, i: int): seq<Send>
    requires IsRun(n, r) && k <= |r.steps|
  {
    if k == 0 then []
    else
      assert StepsTo(n, r, k - 1);
      Sent(n, r, k - 1, i)
      + if Actor(r.steps[k - 1]) == i then Effect(n, r.states[k - 1], r.steps[k - 1]).sends else []
  }

  ghost predicate QuietCrash(s: NodeState) {
    s.crashed ==> s.queue == []
  }

  lemma {:induction false} ReceiveKeepsCrash(n: int, i: int, s: NodeState, p: Packet)
    requires Shaped(n, i, s) && Defined(n, i, s, p)
    ensures Receive(n, i, s, p).node.crashed == s.crashed
  {
  }

  lemma {:induction false} EffectQuietCrash(n: int, c: Cluster, step: Step)
    requires Enabled(n, c, step) && QuietCrash(c.nodes[Actor(step)])
    ensures QuietCrash(Effect(n, c, step).node)
  {
    var (i, s) := (Actor(step), Before(c, step));
    if Handling(c, step).Some? {
      ReceiveKeepsCrash(n, i, s, Handling(c, step).value);
      hide Receive;
    }
  }

  lemma {:induction false} CrashedHasNoQueue(n: int, r: Run, k: nat, i: int)
    requires IsRun(n, r) && NodeIn(r, k, i)
    ensures QuietCrash(r.states[k].nodes[i])
  {
    if k > 0 {
      SameNodes(n, r, k - 1);
      SameNodes(n, r, k);
      assert StepsTo(n, r, k - 1);
      CrashedHasNoQueue(n, r, k - 1, i);
      if i == Actor(r.steps[k - 1]) {
        EffectQuietCrash(n, r.states[k - 1], r.steps[k - 1]);
      }
    }
  }

  /** The event that a step is for its node: a resumed message is met as it arrived. */
  function Met(c: Cluster, step: Step): Event
    requires 0 <= Actor(step) < |c.nodes|
  {
    if step.Resume? && c.nodes[Actor(step)].queue != [] then Arrives(c.nodes[Actor(step)].queue[0]) else EventOf(step)
  }

  lemma {:induction false} StepIsReaction(n: int, c: Cluster, step: Step)
    requires Enabled(n, c, step) && QuietCrash(c.nodes[Actor(step)]) && QueueOk(c.nodes[Actor(step)])
    ensures var (i, s) := (Actor(step), c.nodes[Actor(step)]);
            && Fits(n, i, Still(s), Met(c, step))
            && React(n, i, Still(s), Met(c, step)) == Effect(n, c, step)
            && Arrivals(s.queue) == if step.Resume? then [Met(c, step)] else []
  {
    var s := c.nodes[Actor(step)];
    assert Before(c, step) == Still(s);
    assert s.queue != [] ==> s.queue[1..] == [];
  }

  /** The network, the node's queue, its timer, the controller or a client has this for the node. */
  predicate Offered(c: Cluster, step: Step) {
    && 0 <= Actor(step) < |c.nodes|
    && var s := c.nodes[Actor(step)];
    match step
    case Deliver(p) => p in c.net && s.queue == []
    case Resume(_) => s.queue != []
    case Recovery(_) => s.crashed
    case Timeout(_) => !s.crashed && s.queue == []
    case Crash(_) => !s.crashed && s.queue == []
    case ClientRequest(_, _, _) => !s.crashed && s.queue == []
  }

  /**
    In any state of a run the cluster can take exactly the steps that are offered and that the driver can take at the
    node, whatever the node's role: a run leaves out nothing that may happen to a node.
   */
  lemma {:induction false} StepsAreReactions(n: int, r: Run, k: nat, step: Step)
    requires IsRun(n, r) && k < |r.states|
    ensures var c := r.states[k];
            Enabled(n, c, step) <==>
              Offered(c, step) && Fits(n, Actor(step), Still(c.nodes[Actor(step)]), Met(c, step))
  {
    SameNodes(n, r, k);
    var (c, i) := (r.states[k], Actor(step));
    if 0 <= i < n {
      CrashedHasNoQueue(n, r, k, i);
      QueueHoldsOne(n, r, k, i);
      assert c.nodes[i].queue != [] ==> c.nodes[i].queue[1..] == [];
      assert step.Resume? && c.nodes[i].queue != [] ==> Before(c, step) == Still(c.nodes[i]);
      assert c.nodes[i].queue == [] ==> Still(c.nodes[i]) == c.nodes[i] == Before(c, step);
      hide Defined;
    }
  }

  /** A cycle of the node that acts ends in the step. */
  predicate EndsIn(n: int, c: Cluster, step: Step)
    requires 0 <= Actor(step) < |c.nodes|
  {
    EndsCycle(n, Still(c.nodes[Actor(step)]), Met(c, step))
  }

  /** In how many of the first k steps a cycle of node i ends. */
  ghost function Ended(n: int, r: Run, k: nat, i: int): nat
    requires IsRun(n, r) && k <= |r.steps|
  {
    if k == 0 then 0
    else
      assert StepsTo(n, r, k - 1);
      Ended(n, r, k - 1, i)
      + if Actor(r.steps[k - 1]) == i && EndsIn(n, r.states[k - 1], r.steps[k - 1]) then 1 else 0
  }

  /** Whoever may go on from s' with feed', after these sends and cycles, may start from s with feed. */
  predicate Continues(n: int, i: int, s: NodeState, feed: seq<Event>, sends: seq<Send>, cycles: nat, s': NodeState,
                      feed': seq<Event>)
    requires s.queue == [] && s'.queue == []
  {
    Safe(n, i, s', feed') ==>
      Safe(n, i, s, feed) && Process(n, i, s, feed) == After(sends, cycles, Process(n, i, s', feed'))
  }

  lemma {:induction false} ReactionFirst(n: int, i: int, s: NodeState, e: Event, more: seq<Event>)
    requires s.queue == [] && Fits(n, i, s, e)
    ensures var o := React(n, i, s, e);
            Continues(n, i, s, [e] + more, o.sends, if EndsCycle(n, s, e) then 1 else 0,
                      Still(o.node), Arrivals(o.node.queue) + more)
  {
    var feed := [e] + more;
    assert feed[0] == e && feed[1..] == more;
  }

  /** A step of node i moves its events from what is to come to what was sent. */
  lemma {:induction false} StepAtNode(n: int, c: Cluster, step: Step, more: seq<Event>)
    requires Enabled(n, c, step) && QuietCrash(c.nodes[Actor(step)]) && QueueOk(c.nodes[Actor(step)])
    ensures var (i, s, o) := (Actor(step), c.nodes[Actor(step)], Effect(n, c, step));
            var feed := Arrivals(s.queue) + ((if step.Resume? then [] else [EventOf(step)]) + more);
            Continues(n, i, Still(s), feed, o.sends, if EndsIn(n, c, step) then 1 else 0,
                      Still(o.node), Arrivals(o.node.queue) + more)
  {
    var (i, s) := (Actor(step), c.nodes[Actor(step)]);
    StepIsReaction(n, c, step);
    assert EndsIn(n, c, step) == EndsCycle(n, Still(s), Met(c, step));
    hide *;
    ReactionFirst(n, i, Still(s), Met(c, step), more);
    assert Arrivals(s.queue) + ((if step.Resume? then [] else [EventOf(step)]) + more) == [Met(c, step)] + more;
  }

  /**
    After any k steps of a run, node i has come as far as the driver comes with the events that reached it,
    whatever comes after.
   */
  lemma {:induction false} RunIsDriver(n: int, r: Run, k: nat, i: int, more: seq<Event>)
    requires IsRun(n, r) && k <= |r.steps| && NodeIn(r, k, i)
    requires var s := r.states[k].nodes[i]; Safe(n, i, Still(s), Arrivals(s.queue) + more)
    ensures Safe(n, i, InitialNode(n), Feed(r, k, i) + more)
    ensures var s := r.states[k].nodes[i];
            Process(n, i, InitialNode(n), Feed(r, k, i) + more)
            == After(Sent(n, r, k, i), Ended(n, r, k, i), Process(n, i, Still(s), Arrivals(s.queue) + more))
  {
    hide Safe, Process, React, Effect, EndsIn;
    if k == 0 {
      assert Arrivals([]) + more == more && Feed(r, 0, i) + more == more;
      AfterNothing(Process(n, i, InitialNode(n), more));
    } else {
      var (c, step) := (r.states[k - 1], r.steps[k - 1]);
      assert StepsTo(n, r, k - 1);
      SameNodes(n, r, k - 1);
      if Actor(step) == i {
        CrashedHasNoQueue(n, r, k - 1, i);
        QueueHoldsOne(n, r, k - 1, i);
        StepAtNode(n, c, step, more);
        var ahead := (if step.Resume? then [] else [EventOf(step)]) + more;
        RunIsDriver(n, r, k - 1, i, ahead);
        assert Feed(r, k - 1, i) + ahead == Feed(r, k, i) + more;
        var s := r.states[k].nodes[i];
        AfterAfter(Sent(n, r, k - 1, i), Ended(n, r, k - 1, i),
                   Effect(n, c, step).sends, if EndsIn(n, c, step) then 1 else 0,
                   Process(n, i, Still(s), Arrivals(s.queue) + more));
      } else {
        assert Feed(r, k, i) == Feed(r, k - 1, i) && Sent(n, r, k, i) == Sent(n, r, k - 1, i);
        assert Ended(n, r, k, i) == Ended(n, r, k - 1, i);
        RunIsDriver(n, r, k - 1, i, more);
      }
    }
  }

  lemma {:induction false} BeginsNew(n: int, i: int, feed: seq<Event>)
    requires n >= 2 && 0 <= i < n && Safe(n, i, InitialNode(n), feed)
    ensures SafeStart(n, i, InitialNode(n), feed)
    ensures Begin(n, i, InitialNode(n), feed) == After([], 1, Process(n, i, InitialNode(n), feed))
  {
    assert FreshCycle(n, InitialNode(n)) == InitialNode(n);
    hide Safe, Process;
  }

  /**
    A node with nothing put back, at any point of a run, is in the state that the driver of a new node reaches
    with the events that reached it; it has sent the same messages in the same order, and has begun one cycle at the
    start and one after each step that ends a cycle, as EndsCycle says.
   */
  lemma {:induction false} NodeIsDriver(n: int, r: Run, k: nat, i: int)
    requires IsRun(n, r) && k <= |r.steps| && NodeIn(r, k, i) && r.states[k].nodes[i].queue == []
    ensures SafeStart(n, i, InitialNode(n), Feed(r, k, i))
    ensures Begin(n, i, InitialNode(n), Feed(r, k, i))
            == Course(r.states[k].nodes[i], Sent(n, r, k, i), 1 + Ended(n, r, k, i))
  {
    SameNodes(n, r, k);
    RunIsDriver(n, r, k, i, []);
    var (s, feed) := (r.states[k].nodes[i], Feed(r, k, i));
    assert feed + [] == feed && Arrivals([]) + [] == [];
    assert Still(s) == s && Process(n, i, s, []) == Course(s, [], 0);
    hide IsRun, Feed, Sent, Ended, Safe, Process;
    BeginsNew(n, i, feed);
    assert Sent(n, r, k, i) + [] == Sent(n, r, k, i) && [] + Sent(n, r, k, i) == Sent(n, r, k, i);
  }

  /** A new node, run as it is written on the events of node i, reaches node i's state and sends what it sent. */
  method Replay(n: int, i: int, feed: seq<Event>, ghost r: Run, ghost k: nat)
    returns (node: N.Node, cycle: N.Cycle, ghost cycles: nat)
    requires IsRun(n, r) && k <= |r.steps| && NodeIn(r, k, i) && r.states[k].nodes[i].queue == []
    requires 0 <= i < n && feed == Feed(r, k, i)
    ensures cycle.node == node && Still(cycle.Model()) == r.states[k].nodes[i]
    ensures node.outbox == Sent(n, r, k, i) && cycles == 1 + Ended(n, r, k, i)
  {
    node := new N.Node(n, i, feed);
    NodeIsDriver(n, r, k, i);
    hide Safe, Process, SafeStart, Begin, IsRun, Feed, Sent, Ended;
    assert node.Idle() == InitialNode(n) && node.inbox.Pending() == feed;
    ghost var sends;
    cycle, sends, cycles := node.Start();
  }
}
