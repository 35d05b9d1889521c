/** What the messages that a node sends look like from the state it ends in. */
module Sends {
  import opened Types
  import opened NodeSpec
  import opened Clusters

  lemma {:induction false} CommitTargetReached(n: int, me: int, matchIndex: seq<int>, c: int)
    requires n >= 2 && 0 <= me < n && |matchIndex| == n
    ensures var r := CommitTarget(n, me, matchIndex, c);
            r >= c && (r > c ==> |Matched(n, me, matchIndex, r)| > n / 2)
    decreases MaxOf(matchIndex) - c
  {
    if |Matched(n, me, matchIndex, c + 1)| > n / 2 {
      MajorityBoundsCommit(n, me, matchIndex, c + 1);
      CommitTargetReached(n, me, matchIndex, c + 1);
    }
  }

  // ---------------------------------------------------------------- one message to each of the other nodes

  /** The place of node f among the nodes other than i, in rank order. */
  function Place(i: int, f: int): int {
    if f < i then f else f - 1
  }

  lemma {:induction false} UpdatesNext(i: int, s: NodeState, d: int)
    requires 0 < d <= |s.nextIndex| && forall f | 0 <= f < |s.nextIndex| :: s.nextIndex[f] >= 0
    ensures Updates(i, s, d)
            == Updates(i, s, d - 1) + if d - 1 == i then [] else [Send(d - 1, AppendFor(i, s, d - 1))]
  {
    hide AppendFor;
  }

  lemma {:induction false} UpdatesCount(i: int, s: NodeState, d: int)
    requires 0 <= i < |s.nextIndex| && 0 <= d <= |s.nextIndex|
    requires forall f | 0 <= f < |s.nextIndex| :: s.nextIndex[f] >= 0
    ensures |Updates(i, s, d)| == if d <= i then d else d - 1
  {
    if d > 0 {
      UpdatesCount(i, s, d - 1);
      UpdatesNext(i, s, d);
      hide AppendFor, Updates;
    }
  }

  lemma {:induction false} UpdatePlaced(i: int, s: NodeState, d: int, f: int)
    requires 0 <= i < |s.nextIndex| && 0 <= f < d <= |s.nextIndex| && f != i
    requires forall g | 0 <= g < |s.nextIndex| :: s.nextIndex[g] >= 0
    ensures Place(i, f) < |Updates(i, s, d)| && Updates(i, s, d)[Place(i, f)] == Send(f, AppendFor(i, s, f))
  {
    hide AppendFor, Updates;
    UpdatesNext(i, s, d);
    UpdatesCount(i, s, d - 1);
    if f < d - 1 {
      UpdatePlaced(i, s, d - 1, f);
    }
  }

  lemma {:induction false} UpdatesPlaced(i: int, s: NodeState, d: int)
    requires 0 <= i < |s.nextIndex| && 0 <= d <= |s.nextIndex|
    requires forall f | 0 <= f < |s.nextIndex| :: s.nextIndex[f] >= 0
    ensures |Updates(i, s, d)| == if d <= i then d else d - 1
    ensures forall f | 0 <= f < d && f != i :: Updates(i, s, d)[Place(i, f)] == Send(f, AppendFor(i, s, f))
  {
    UpdatesCount(i, s, d);
    hide AppendFor, Updates;
    forall f | 0 <= f < d && f != i ensures Updates(i, s, d)[Place(i, f)] == Send(f, AppendFor(i, s, f)) {
      UpdatePlaced(i, s, d, f);
    }
  }

  lemma {:induction false} RequestsNext(i: int, s: NodeState, d: int)
    requires d > 0
    ensures VoteRequests(i, s, d)
            == VoteRequests(i, s, d - 1) + if d - 1 == i then [] else [Send(d - 1, VoteRequest(i, s))]
  {
    hide VoteRequest;
  }

  lemma {:induction false} RequestsCount(i: int, s: NodeState, d: nat)
    requires 0 <= i
    ensures |VoteRequests(i, s, d)| == if d <= i then d else d - 1
  {
    if d > 0 {
      RequestsCount(i, s, d - 1);
      RequestsNext(i, s, d);
      hide VoteRequest, VoteRequests;
    }
  }

  lemma {:induction false} RequestPlaced(i: int, s: NodeState, d: nat, f: int)
    requires 0 <= i && 0 <= f < d && f != i
    ensures Place(i, f) < |VoteRequests(i, s, d)| && VoteRequests(i, s, d)[Place(i, f)] == Send(f, VoteRequest(i, s))
  {
    hide VoteRequest, VoteRequests;
    RequestsNext(i, s, d);
    RequestsCount(i, s, d - 1);
    if f < d - 1 {
      RequestPlaced(i, s, d - 1, f);
    }
  }

  lemma {:induction false} RequestsPlaced(i: int, s: NodeState, d: nat)
    requires 0 <= i
    ensures |VoteRequests(i, s, d)| == if d <= i then d else d - 1
    ensures forall f | 0 <= f < d && f != i :: VoteRequests(i, s, d)[Place(i, f)] == Send(f, VoteRequest(i, s))
  {
    RequestsCount(i, s, d);
    hide VoteRequest, VoteRequests;
    forall f | 0 <= f < d && f != i ensures VoteRequests(i, s, d)[Place(i, f)] == Send(f, VoteRequest(i, s)) {
      RequestPlaced(i, s, d, f);
    }
  }

  // ---------------------------------------------------------------- appends

  /** An append sent by a node that had commitIndex c before the step and is in state s after it. */
  ghost predicate SentAppend(n: int, i: int, c: int, s: NodeState, snd: Send) {
    && s.role == Leader
    && 0 <= snd.dst < n == |s.nextIndex| && snd.dst != i && s.nextIndex[snd.dst] >= 0
    && snd.msg.AppendEntries?
    && var m := AppendFor(i, s, snd.dst);
    && m.AppendEntries? && snd.msg == m.(leaderCommit := c)
  }

  lemma {:induction false} LastSent(n: int, i: int, s: NodeState, f: int)
    requires Shaped(n, i, s) && s.role == Leader && 0 <= f < n && f != i && s.nextIndex[f] >= 0
    ensures SentAppend(n, i, s.commitIndex, s, Send(f, AppendFor(i, s, f)))
  {
  }

  lemma {:induction false} UpdateSent(n: int, i: int, s: NodeState, d: int, snd: Send)
    requires Shaped(n, i, s) && s.role == Leader && 0 <= d <= n
    requires (forall f | 0 <= f < n :: s.nextIndex[f] >= 0) && snd in Updates(i, s, d)
    ensures SentAppend(n, i, s.commitIndex, s, snd)
    decreases d
  {
    hide SentAppend, AppendFor;
    if d > 0 {
      hide Updates;
      UpdatesNext(i, s, d);
      if snd in Updates(i, s, d - 1) {
        UpdateSent(n, i, s, d - 1, snd);
      } else {
        LastSent(n, i, s, d - 1);
      }
    }
  }

  lemma {:induction false} UpdatesSent(n: int, i: int, s: NodeState, d: int)
    requires Shaped(n, i, s) && s.role == Leader && 0 <= d <= n
    requires forall f | 0 <= f < n :: s.nextIndex[f] >= 0
    ensures forall snd | snd in Updates(i, s, d) :: SentAppend(n, i, s.commitIndex, s, snd)
  {
    hide Updates, SentAppend;
    forall snd | snd in Updates(i, s, d) ensures SentAppend(n, i, s.commitIndex, s, snd) {
      UpdateSent(n, i, s, d, snd);
    }
  }

  lemma {:induction false} VoteRequestsSent(i: int, s: NodeState, d: int)
    ensures forall snd | snd in VoteRequests(i, s, d) :: snd.msg.RequestVote?
  {
    if d > 0 {
      VoteRequestsSent(i, s, d - 1);
    }
  }

  lemma {:induction false} EnterSends(n: int, i: int, s: NodeState)
    requires Shaped(n, i, s) && DefinedEnter(s)
    ensures var o := Enter(n, i, s);
            forall snd | snd in o.sends ::
              snd.msg.RequestVote? || SentAppend(n, i, s.commitIndex, o.node, snd)
  {
    match s.role {
      case Follower =>
      case Leader => UpdatesSent(n, i, FreshCycle(n, s), n);
      case Candidate => VoteRequestsSent(i, Campaign(i, FreshCycle(n, s)), n);
    }
  }

  lemma {:induction false} LeaderSends(n: int, i: int, s: NodeState, p: Packet)
    requires Shaped(n, i, s) && s.role == Leader && !StepsDown(s, p) && Defined(n, i, s, p) && p.src != i
    requires forall f | 0 <= f < n :: s.nextIndex[f] >= 0
    ensures var o := Receive(n, i, s, p);
            forall snd | snd in o.sends :: SentAppend(n, i, s.commitIndex, o.node, snd)
  {
  }

  lemma {:induction false} ReceiveSends(n: int, i: int, s: NodeState, p: Packet)
    requires Shaped(n, i, s) && Defined(n, i, s, p) && p.src != i
    requires forall f | 0 <= f < n :: s.nextIndex[f] >= 0
    ensures var o := Receive(n, i, s, p);
            forall snd | snd in o.sends && snd.msg.AppendEntries? :: SentAppend(n, i, s.commitIndex, o.node, snd)
  {
    var h := Handle(n, i, s, p);
    if s.role == Leader && !StepsDown(s, p) {
      LeaderSends(n, i, s, p);
    } else if h.leave {
      EnterSends(n, i, Leave(n, h.node, h.next));
    }
  }

  /** A successful response is only sent for an append with entries that was just accepted. */
  lemma {:induction false} ReceiveAcks(n: int, i: int, s: NodeState, p: Packet, snd: Send)
    requires Shaped(n, i, s) && Defined(n, i, s, p) && p.src != i
    requires forall f | 0 <= f < n :: s.nextIndex[f] >= 0
    requires snd in Receive(n, i, s, p).sends && snd.msg.AppendEntriesResponse? && snd.msg.success
    ensures s.role == Follower && Accepts(AdoptTerm(s, p.msg.term), p.msg)
    ensures snd == Send(p.src, AppendEntriesResponse(p.msg.term, true, Total(p.msg)))
  {
    var h := Handle(n, i, s, p);
    if s.role == Leader && !StepsDown(s, p) {
      LeaderSends(n, i, s, p);
    } else if h.leave {
      EnterSends(n, i, Leave(n, h.node, h.next));
    }
  }

  /** The acting node's input, or none, in one predicate over Before and Effect. */
  lemma {:induction false} EffectSends(n: int, c: Cluster, step: Step)
    requires Enabled(n, c, step)
    requires Handling(c, step).Some? ==> Handling(c, step).value.src != Actor(step)
    requires forall f | 0 <= f < n :: Before(c, step).nextIndex[f] >= 0
    ensures var o := Effect(n, c, step);
            forall snd | snd in o.sends && snd.msg.AppendEntries? ::
              SentAppend(n, Actor(step), Before(c, step).commitIndex, o.node, snd)
  {
    var i := Actor(step);
    var s := Before(c, step);
    match step {
      case Deliver(p) => if !s.crashed { ReceiveSends(n, i, s, p); }
      case Resume(_) => ReceiveSends(n, i, s, Handling(c, step).value);
      case Timeout(_) => EnterSends(n, i, Leave(n, s, if s.role == Follower then Some(Candidate) else None));
      case Recovery(_) => EnterSends(n, i, s.(crashed := false));
      case _ =>
    }
  }
}
