/** The shape of logs and of what is sent, in any run whatever: no hypothesis on the network is used. */
module Terms {
  import opened Types
  import opened NodeSpec
  import opened Clusters
  import opened Sends

  /** Terms never fall along the log and stay between low and high. */
  ghost predicate Climbs(log: seq<Entry>, low: int, high: int) {
    && (forall x | 0 <= x < |log| :: low <= log[x].term <= high)
    && (forall x, y | 0 <= x < y < |log| :: log[x].term <= log[y].term)
  }

  ghost predicate Placed(log: seq<Entry>) {
    forall x | 0 <= x < |log| :: log[x].index == x
  }

  ghost predicate MessageClimbs(m: Message) {
    match m
    case RequestVote(_, _, lastIndex, lastTerm) =>
      (lastIndex == -1 && lastTerm == -1) || (lastIndex >= 0 && lastTerm >= 1)
    case AppendEntries(t, _, _, prevTerm, _, entries) => Climbs(entries, 1, t) && Climbs(entries, prevTerm, t)
    case AppendEntriesResponse(_, _, newIndex) => newIndex >= 0
    case _ => true
  }

  /** A packet between two different nodes. */
  ghost predicate PacketClimbs(n: int, p: Packet) {
    0 <= p.src < n && 0 <= p.dst < n && p.src != p.dst && MessageClimbs(p.msg)
  }

  ghost predicate NextBound(s: NodeState) {
    forall f | 0 <= f < |s.nextIndex| :: s.nextIndex[f] >= 0
  }

  ghost predicate NodeClimbs(n: int, i: int, s: NodeState) {
    && Shaped(n, i, s)
    && s.term >= (if s.role == Follower then 0 else 1)
    && Climbs(s.log, 1, s.term) && Placed(s.log) && NextBound(s)
    && (forall p | p in s.queue :: p.dst == i && PacketClimbs(n, p))
  }

  ghost predicate SendsClimb(sends: seq<Send>) {
    forall snd | snd in sends :: MessageClimbs(snd.msg)
  }

  ghost predicate TermsInv(n: int, c: Cluster) {
    && n >= 2 && |c.nodes| == n
    && (forall i | 0 <= i < n :: NodeClimbs(n, i, c.nodes[i]))
    && (forall p | p in c.net :: PacketClimbs(n, p))
  }

  // ---------------------------------------------------------------- what is sent

  lemma {:induction false} AppendForClimbs(i: int, s: NodeState, dst: int)
    requires Climbs(s.log, 1, s.term) && 0 <= dst < |s.nextIndex| && s.nextIndex[dst] >= 0
    ensures MessageClimbs(AppendFor(i, s, dst))
  {
  }

  lemma {:induction false} UpdatesClimb(n: int, i: int, s: NodeState)
    requires Shaped(n, i, s) && s.role == Leader && Climbs(s.log, 1, s.term)
    requires forall f | 0 <= f < n :: s.nextIndex[f] >= 0
    ensures SendsClimb(Updates(i, s, n))
  {
    UpdatesSent(n, i, s, n);
    forall snd | snd in Updates(i, s, n) ensures MessageClimbs(snd.msg) {
      assert SentAppend(n, i, s.commitIndex, s, snd);
      AppendForClimbs(i, s, snd.dst);
    }
  }

  lemma {:induction false} RequestsClimb(i: int, s: NodeState, d: int)
    requires Climbs(s.log, 1, s.term)
    ensures SendsClimb(VoteRequests(i, s, d))
  {
    if d > 0 {
      RequestsClimb(i, s, d - 1);
    }
  }

  // ---------------------------------------------------------------- what one node does

  lemma {:induction false} EnterClimbs(n: int, i: int, s: NodeState)
    requires DefinedEnter(s) && Shaped(n, i, s) && Climbs(s.log, 1, s.term) && Placed(s.log) && NextBound(s)
    requires s.term >= (if s.role == Leader then 1 else 0)
    requires forall p | p in s.queue :: p.dst == i && PacketClimbs(n, p)
    ensures NodeClimbs(n, i, Enter(n, i, s).node) && SendsClimb(Enter(n, i, s).sends)
  {
    var f := FreshCycle(n, s);
    match s.role {
      case Follower =>
      case Leader => UpdatesClimb(n, i, f);
      case Candidate => RequestsClimb(i, Campaign(i, f), n);
    }
  }

  lemma {:induction false} AcceptClimbs(s: NodeState, m: Message)
    requires Accepts(s, m) && DefinedAppend(s, m) && Climbs(s.log, 1, s.term) && Placed(s.log) && MessageClimbs(m)
    ensures Climbs(AcceptedLog(s, m), 1, m.term) && Placed(AcceptedLog(s, m))
  {
    var (log, cut) := (AcceptedLog(s, m), m.prevLogIndex + 1);
    forall x, y | 0 <= x < y < |log| ensures log[x].term <= log[y].term {
      if x < cut <= y {
        assert log[y] == m.entries[y - cut];
        assert s.log[x].term <= s.log[m.prevLogIndex].term;
      }
    }
  }

  lemma {:induction false} ClimbsHigher(log: seq<Entry>, high: int, higher: int)
    requires Climbs(log, 1, high) && high <= higher
    ensures Climbs(log, 1, higher)
  {
  }

  /** A follower changes its log only by accepting, and only replies. */
  lemma {:induction false} FollowerResult(n: int, i: int, s: NodeState, p: Packet)
    requires Shaped(n, i, s) && Defined(n, i, s, p) && s.role == Follower
    ensures var (a, o) := (AdoptTerm(s, p.msg.term), Receive(n, i, s, p));
            && Shaped(n, i, o.node) && o.node.role == Follower && o.node.term == a.term && o.node.queue == s.queue
            && o.node.nextIndex == s.nextIndex
            && o.node.log == (if Accepts(a, p.msg) then AcceptedLog(a, p.msg) else s.log)
            && (forall snd | snd in o.sends :: snd.msg.RequestVoteResponse? ||
                  (snd.msg.AppendEntriesResponse? && snd.msg.newIndex >= 0))
  {
  }

  lemma {:induction false} FollowerClimbs(n: int, i: int, s: NodeState, p: Packet)
    requires NodeClimbs(n, i, s) && p.dst == i && PacketClimbs(n, p) && Defined(n, i, s, p) && s.role == Follower
    ensures NodeClimbs(n, i, Receive(n, i, s, p).node) && SendsClimb(Receive(n, i, s, p).sends)
  {
    var a := AdoptTerm(s, p.msg.term);
    FollowerResult(n, i, s, p);
    ClimbsHigher(s.log, s.term, a.term);
    if Accepts(a, p.msg) {
      AcceptClimbs(a, p.msg);
    }
    hide Receive, Climbs, Placed;
  }

  lemma {:induction false} DemotedClimbs(n: int, i: int, s: NodeState, p: Packet)
    requires NodeClimbs(n, i, s) && p.dst == i && PacketClimbs(n, p) && Defined(n, i, s, p) && StepsDown(s, p)
    ensures NodeClimbs(n, i, Receive(n, i, s, p).node) && SendsClimb(Receive(n, i, s, p).sends)
  {
  }

  lemma {:induction false} CandidateClimbs(n: int, i: int, s: NodeState, p: Packet)
    requires NodeClimbs(n, i, s) && p.dst == i && PacketClimbs(n, p) && Defined(n, i, s, p)
    requires s.role == Candidate && !StepsDown(s, p)
    ensures NodeClimbs(n, i, Receive(n, i, s, p).node) && SendsClimb(Receive(n, i, s, p).sends)
  {
    var h := CandidateHandle(n, s, p);
    if h.leave {
      EnterClimbs(n, i, Leave(n, h.node, h.next));
    }
  }

  lemma {:induction false} LeaderClimbs(n: int, i: int, s: NodeState, p: Packet)
    requires NodeClimbs(n, i, s) && p.dst == i && PacketClimbs(n, p) && Defined(n, i, s, p)
    requires s.role == Leader && !StepsDown(s, p)
    ensures NodeClimbs(n, i, Receive(n, i, s, p).node) && SendsClimb(Receive(n, i, s, p).sends)
  {
    var o := HandleAck(i, s, p);
    if o.sends != [] {
      AppendForClimbs(i, o.node, p.src);
    }
    hide AppendFor, CommitTarget, Clients;
  }

  lemma {:induction false} ReceiveClimbs(n: int, i: int, s: NodeState, p: Packet)
    requires NodeClimbs(n, i, s) && p.dst == i && PacketClimbs(n, p) && Defined(n, i, s, p)
    ensures NodeClimbs(n, i, Receive(n, i, s, p).node) && SendsClimb(Receive(n, i, s, p).sends)
  {
    if StepsDown(s, p) {
      DemotedClimbs(n, i, s, p);
    } else {
      match s.role {
        case Follower => FollowerClimbs(n, i, s, p);
        case Candidate => CandidateClimbs(n, i, s, p);
        case Leader => LeaderClimbs(n, i, s, p);
      }
    }
  }

  lemma {:induction false} EffectClimbs(n: int, c: Cluster, step: Step)
    requires TermsInv(n, c) && Enabled(n, c, step)
    ensures NodeClimbs(n, Actor(step), Effect(n, c, step).node) && SendsClimb(Effect(n, c, step).sends)
  {
    var (i, s) := (Actor(step), Before(c, step));
    assert NodeClimbs(n, i, c.nodes[i]);
    match step {
      case Deliver(p) => if !s.crashed { ReceiveClimbs(n, i, s, p); }
      case Resume(_) => ReceiveClimbs(n, i, s, c.nodes[i].queue[0]);
      case Timeout(_) => EnterClimbs(n, i, Leave(n, s, if s.role == Follower then Some(Candidate) else None));
      case Recovery(_) => EnterClimbs(n, i, s.(crashed := false));
      case _ =>
    }
  }

  /** The message that a step handles, and the node that handles it, meet the invariant. */
  lemma {:induction false} TermsReady(n: int, c: Cluster, step: Step)
    requires TermsInv(n, c) && Enabled(n, c, step) && Handling(c, step).Some?
    ensures NodeClimbs(n, Actor(step), Before(c, step))
    ensures Handling(c, step).value.dst == Actor(step) && PacketClimbs(n, Handling(c, step).value)
  {
    assert NodeClimbs(n, Actor(step), c.nodes[Actor(step)]);
  }

  // ---------------------------------------------------------------- to whom, and what is put back

  /** Every message goes to another node. */
  ghost predicate ToOthers(n: int, i: int, sends: seq<Send>) {
    forall snd | snd in sends :: 0 <= snd.dst < n && snd.dst != i
  }

  lemma {:induction false} RequestsToOthers(n: int, i: int, s: NodeState, d: int)
    requires d <= n
    ensures ToOthers(n, i, VoteRequests(i, s, d))
  {
    if d > 0 {
      RequestsToOthers(n, i, s, d - 1);
    }
  }

  lemma {:induction false} EnterToOthers(n: int, i: int, s: NodeState)
    requires Shaped(n, i, s) && DefinedEnter(s)
    ensures ToOthers(n, i, Enter(n, i, s).sends)
  {
    match s.role {
      case Follower =>
      case Leader => UpdatesSent(n, i, FreshCycle(n, s), n);
      case Candidate => RequestsToOthers(n, i, Campaign(i, FreshCycle(n, s)), n);
    }
  }

  lemma {:induction false} ReceiveToOthers(n: int, i: int, s: NodeState, p: Packet)
    requires Shaped(n, i, s) && Defined(n, i, s, p) && p.src != i
    ensures ToOthers(n, i, Receive(n, i, s, p).sends)
  {
    var h := Handle(n, i, s, p);
    if h.leave {
      EnterToOthers(n, i, Leave(n, h.node, h.next));
    }
  }

  lemma {:induction false} EffectToOthers(n: int, c: Cluster, step: Step)
    requires Enabled(n, c, step) && (Handling(c, step).Some? ==> Handling(c, step).value.src != Actor(step))
    ensures ToOthers(n, Actor(step), Effect(n, c, step).sends)
  {
    var (i, s) := (Actor(step), Before(c, step));
    match step {
      case Deliver(p) => if !s.crashed { ReceiveToOthers(n, i, s, p); }
      case Resume(_) => ReceiveToOthers(n, i, s, Handling(c, step).value);
      case Timeout(_) => EnterToOthers(n, i, Leave(n, s, if s.role == Follower then Some(Candidate) else None));
      case Recovery(_) => EnterToOthers(n, i, s.(crashed := false));
      case _ =>
    }
  }

  /** A message is put back at most once, behind what the queue held. */
  lemma {:induction false} ReceiveQueue(n: int, i: int, s: NodeState, p: Packet)
    requires Shaped(n, i, s) && Defined(n, i, s, p)
    ensures var s' := Receive(n, i, s, p).node;
            s'.queue == s.queue || (s'.queue == s.queue + [p] && s'.role == Follower)
  {
  }

  /** Whatever a step leaves in the acting node's queue was there or has just been handled. */
  lemma {:induction false} QueueFrom(n: int, c: Cluster, step: Step, p: Packet)
    requires Enabled(n, c, step) && p in Effect(n, c, step).node.queue
    ensures p in c.nodes[Actor(step)].queue || Handling(c, step) == Some(p)
  {
    var h := Handling(c, step);
    if h.Some? {
      ReceiveQueue(n, Actor(step), Before(c, step), h.value);
      hide Receive;
    }
  }

  // ---------------------------------------------------------------- runs

  lemma {:induction false} TermsStepKept(n: int, c: Cluster, step: Step)
    requires TermsInv(n, c) && Enabled(n, c, step)
    ensures TermsInv(n, Apply(n, c, step))
  {
    var o := Effect(n, c, step);
    EffectClimbs(n, c, step);
    if Handling(c, step).Some? {
      TermsReady(n, c, step);
    }
    EffectToOthers(n, c, step);
    hide Effect, NodeClimbs, MessageClimbs;
    forall p | p in Apply(n, c, step).net ensures PacketClimbs(n, p) {
      if p !in c.net {
        Stamped(Actor(step), c.nextId, o.sends, p);
      }
    }
  }

  lemma {:induction false} TermsHold(n: int, r: Run, k: nat)
    requires IsRun(n, r) && k < |r.states|
    ensures TermsInv(n, r.states[k])
  {
    if k > 0 {
      assert StepsTo(n, r, k - 1);
      TermsHold(n, r, k - 1);
      TermsStepKept(n, r.states[k - 1], r.steps[k - 1]);
    }
  }

  /** In any run each entry sits at its index, and terms climb along a log from 1 to at most the node's term. */
  lemma {:induction false} LogTermsClimb(n: int, r: Run, k: nat, i: int)
    requires IsRun(n, r) && k < |r.states| && 0 <= i < |r.states[k].nodes|
    ensures var s := r.states[k].nodes[i];
            && (forall x | 0 <= x < |s.log| :: s.log[x].index == x && 1 <= s.log[x].term <= s.term)
            && (forall x, y | 0 <= x < y < |s.log| :: s.log[x].term <= s.log[y].term)
  {
    TermsHold(n, r, k);
    assert NodeClimbs(n, i, r.states[k].nodes[i]);
  }
}
