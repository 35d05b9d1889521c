/** Facts about single nodes that need no hypothesis on the network, at one step or over any run. */
module NodeFacts {
  import opened Types
  import opened NodeSpec
  import opened Clusters
  import opened History
  import opened BaseStep
  import opened Sends
  import opened Terms

  // ---------------------------------------------------------------- the commit loop is an order statistic

  lemma {:induction false} MatchedShrinks(n: int, me: int, matchIndex: seq<int>, k: int, l: int)
    requires |matchIndex| == n && k <= l
    ensures |Matched(n, me, matchIndex, l)| <= |Matched(n, me, matchIndex, k)|
  {
    SubsetSize(Matched(n, me, matchIndex, l), Matched(n, me, matchIndex, k));
  }

  /** Above the old commitIndex, exactly the indices that a majority matches are committed. */
  lemma {:induction false} CommitIsOrderStatistic(n: int, me: int, matchIndex: seq<int>, c: int, k: int)
    requires n >= 2 && 0 <= me < n && |matchIndex| == n
    ensures CommitTarget(n, me, matchIndex, c) >= c
    ensures k > c ==> (k <= CommitTarget(n, me, matchIndex, c) <==> |Matched(n, me, matchIndex, k)| > n / 2)
  {
    var r := CommitTarget(n, me, matchIndex, c);
    CommitTargetReached(n, me, matchIndex, c);
    CommitTargetStops(n, me, matchIndex, c);
    if c < k <= r {
      MatchedShrinks(n, me, matchIndex, k, r);
    } else if k > r {
      MatchedShrinks(n, me, matchIndex, r + 1, k);
    }
  }

  lemma {:induction false} CommitTargetStops(n: int, me: int, matchIndex: seq<int>, c: int)
    requires n >= 2 && 0 <= me < n && |matchIndex| == n
    ensures |Matched(n, me, matchIndex, CommitTarget(n, me, matchIndex, c) + 1)| <= n / 2
    decreases MaxOf(matchIndex) - c
  {
    if |Matched(n, me, matchIndex, c + 1)| > n / 2 {
      MajorityBoundsCommit(n, me, matchIndex, c + 1);
      CommitTargetStops(n, me, matchIndex, c + 1);
    }
  }

  // ---------------------------------------------------------------- one vote per term

  ghost predicate VoteStays(s: NodeState, s': NodeState) {
    s.term <= s'.term && (s.term == s'.term && s.votedFor.Some? ==> s'.votedFor == s.votedFor)
  }

  lemma {:induction false} ReceiveVoteStays(n: int, i: int, s: NodeState, p: Packet)
    requires Shaped(n, i, s) && Defined(n, i, s, p)
    ensures VoteStays(s, Receive(n, i, s, p).node)
  {
  }

  lemma {:induction false} EffectVoteStays(n: int, c: Cluster, step: Step)
    requires Enabled(n, c, step)
    ensures VoteStays(Before(c, step), Effect(n, c, step).node)
  {
    var (i, s) := (Actor(step), Before(c, step));
    if Handling(c, step).Some? {
      ReceiveVoteStays(n, i, s, Handling(c, step).value);
      hide Receive;
    }
  }

  ghost predicate NodeIn(r: Run, k: nat, i: int) {
    k < |r.states| && 0 <= i < |r.states[k].nodes|
  }

  lemma {:induction false} SameNodes(n: int, r: Run, k: nat)
    requires IsRun(n, r) && k < |r.states|
    ensures |r.states[k].nodes| == n
  {
    if k > 0 {
      assert StepsTo(n, r, k - 1);
    }
  }

  /** In any run a node's term never falls, and within one term its vote never changes. */
  lemma {:induction false} OneVotePerTerm(n: int, r: Run, j: nat, k: nat, i: int)
    requires IsRun(n, r) && j <= k && NodeIn(r, j, i) && NodeIn(r, k, i)
    ensures VoteStays(r.states[j].nodes[i], r.states[k].nodes[i])
  {
    if j < k {
      SameNodes(n, r, k - 1);
      SameNodes(n, r, k);
      assert StepsTo(n, r, k - 1);
      OneVotePerTerm(n, r, j, k - 1, i);
      EffectVoteStays(n, r.states[k - 1], r.steps[k - 1]);
    }
  }

  /** In step k node i answers cand that it has its vote in term t. */
  ghost predicate GrantsAt(n: int, r: Run, k: nat, i: int, t: int, cand: int)
    requires IsRun(n, r)
  {
    && k < |r.steps| && StepsTo(n, r, k) && Actor(r.steps[k]) == i
    && Send(cand, RequestVoteResponse(t, true)) in Effect(n, r.states[k], r.steps[k]).sends
  }

  lemma {:induction false} ReceiveGrants(n: int, i: int, s: NodeState, p: Packet, t: int, cand: int)
    requires Shaped(n, i, s) && Defined(n, i, s, p)
    requires Send(cand, RequestVoteResponse(t, true)) in Receive(n, i, s, p).sends
    ensures var s' := Receive(n, i, s, p).node; s'.term == t && s'.votedFor == Some(cand)
  {
    var h := Handle(n, i, s, p);
    var snd := Send(cand, RequestVoteResponse(t, true));
    if h.leave {
      EnterGrants(n, i, Leave(n, h.node, h.next));
      assert snd in h.sends;
    }
  }

  lemma {:induction false} UpdatesAreAppends(i: int, s: NodeState, d: int)
    requires 0 <= d <= |s.nextIndex| && forall f | 0 <= f < |s.nextIndex| :: s.nextIndex[f] >= 0
    ensures forall snd | snd in Updates(i, s, d) :: snd.msg.AppendEntries?
  {
    if d > 0 {
      UpdatesAreAppends(i, s, d - 1);
    }
  }

  lemma {:induction false} EnterGrants(n: int, i: int, s: NodeState)
    requires Shaped(n, i, s) && DefinedEnter(s)
    ensures forall snd | snd in Enter(n, i, s).sends :: !snd.msg.RequestVoteResponse?
  {
    match s.role {
      case Follower =>
      case Leader => UpdatesAreAppends(i, FreshCycle(n, s), n);
      case Candidate => VoteRequestsSent(i, Campaign(i, FreshCycle(n, s)), n);
    }
  }

  lemma {:induction false} GrantIsVote(n: int, r: Run, k: nat, i: int, t: int, cand: int)
    requires IsRun(n, r) && GrantsAt(n, r, k, i, t, cand)
    ensures NodeIn(r, k + 1, i)
    ensures r.states[k + 1].nodes[i].term == t && r.states[k + 1].nodes[i].votedFor == Some(cand)
  {
    var (c, step) := (r.states[k], r.steps[k]);
    var s := Before(c, step);
    match step {
      case Deliver(p) => if !s.crashed { ReceiveGrants(n, i, s, p, t, cand); }
      case Resume(_) => ReceiveGrants(n, i, s, Handling(c, step).value, t, cand);
      case Timeout(_) => EnterGrants(n, i, Leave(n, s, if s.role == Follower then Some(Candidate) else None));
      case Recovery(_) => EnterGrants(n, i, s.(crashed := false));
      case _ =>
    }
  }

  /** A node never grants its vote of one term to two candidates, nor to another when it voted for itself. */
  lemma {:induction false} OneGrantPerTerm(n: int, r: Run, j: nat, k: nat, i: int, t: int, a: int, b: int)
    requires IsRun(n, r) && GrantsAt(n, r, j, i, t, a) && NodeIn(r, k, i)
    requires r.states[k].nodes[i].term == t && r.states[k].nodes[i].votedFor == Some(b)
    ensures a == b
  {
    GrantIsVote(n, r, j, i, t, a);
    if j + 1 <= k {
      OneVotePerTerm(n, r, j + 1, k, i);
    } else {
      OneVotePerTerm(n, r, k, j + 1, i);
    }
  }

  // ---------------------------------------------------------------- counting votes

  ghost predicate CountOk(s: NodeState) {
    s.role == Candidate ==> s.voteCount == 1 + |GrantedSet(s.granted)|
  }

  lemma {:induction false} ReceiveCountOk(n: int, i: int, s: NodeState, p: Packet)
    requires Shaped(n, i, s) && Defined(n, i, s, p) && CountOk(s)
    ensures CountOk(Receive(n, i, s, p).node)
  {
    if s.role == Candidate && CountsVote(s, p) {
      GrantedOneMore(s.granted, p.src);
    }
  }

  lemma {:induction false} EnterCountOk(n: int, i: int, s: NodeState)
    requires Shaped(n, i, s) && DefinedEnter(s)
    ensures CountOk(Enter(n, i, s).node)
  {
    GrantedNone(n);
  }

  /** In any run a candidate's voteCount is one more than the number of nodes marked in hasVotedForMe. */
  lemma {:induction false} VoteCountIsCardinality(n: int, r: Run, k: nat, i: int)
    requires IsRun(n, r) && NodeIn(r, k, i)
    ensures CountOk(r.states[k].nodes[i])
  {
    if k > 0 {
      SameNodes(n, r, k - 1);
      SameNodes(n, r, k);
      assert StepsTo(n, r, k - 1);
      VoteCountIsCardinality(n, r, k - 1, i);
      if i == Actor(r.steps[k - 1]) {
        EffectCountOk(n, r.states[k - 1], r.steps[k - 1]);
      }
    }
  }

  lemma {:induction false} EffectCountOk(n: int, c: Cluster, step: Step)
    requires Enabled(n, c, step) && CountOk(c.nodes[Actor(step)])
    ensures CountOk(Effect(n, c, step).node)
  {
    var i := Actor(step);
    var s := Before(c, step);
    match step {
      case Deliver(p) => if !s.crashed { ReceiveCountOk(n, i, s, p); }
      case Resume(_) => ReceiveCountOk(n, i, s, Handling(c, step).value);
      case Timeout(_) => EnterCountOk(n, i, Leave(n, s, if s.role == Follower then Some(Candidate) else None));
      case Recovery(_) => EnterCountOk(n, i, s.(crashed := false));
      case _ =>
    }
  }

  /** A candidate becomes leader exactly when the distinct granters with itself pass half the nodes. */
  lemma {:induction false} LeadershipIsMajority(n: int, r: Run, k: nat, i: int, p: Packet)
    requires IsRun(n, r) && k < |r.steps| && StepsTo(n, r, k) && r.steps[k] == Deliver(p) && i == p.dst
    requires NodeIn(r, k, i) && NodeIn(r, k + 1, i) && !r.states[k].nodes[i].crashed
    requires r.states[k].nodes[i].role == Candidate && !StepsDown(r.states[k].nodes[i], p)
    ensures var (s, s') := (r.states[k].nodes[i], r.states[k + 1].nodes[i]);
            s'.role == Leader <==>
              p.msg.RequestVoteResponse? && p.msg.voteGranted && 0 <= p.src < n && !s.granted[p.src]
              && |GrantedSet(s.granted) + {p.src}| + 1 > n / 2
  {
    var s := r.states[k].nodes[i];
    VoteCountIsCardinality(n, r, k, i);
    if CountsVote(s, p) {
      GrantedOneMore(s.granted, p.src);
    }
  }

  lemma {:induction false} ReceiveElects(n: int, i: int, s: NodeState, p: Packet)
    requires Shaped(n, i, s) && Defined(n, i, s, p) && s.role != Leader
    requires Receive(n, i, s, p).node.role == Leader
    ensures s.role == Candidate && CountsVote(s, p) && !StepsDown(s, p)
  {
  }

  lemma {:induction false} EffectElects(n: int, c: Cluster, step: Step)
    requires Enabled(n, c, step) && c.nodes[Actor(step)].role != Leader
    requires Effect(n, c, step).node.role == Leader
    ensures !c.nodes[Actor(step)].crashed && Handling(c, step).Some?
    ensures var s := Before(c, step);
            s.role == Candidate && CountsVote(s, Handling(c, step).value) && !StepsDown(s, Handling(c, step).value)
  {
    if Handling(c, step).Some? {
      ReceiveElects(n, Actor(step), Before(c, step), Handling(c, step).value);
      hide Receive;
    }
  }

  /** No node becomes leader in any other way: the step delivers it a new vote, and with it a majority. */
  lemma {:induction false} LeadersAreElected(n: int, r: Run, k: nat, i: int)
    requires IsRun(n, r) && k < |r.steps| && NodeIn(r, k, i) && NodeIn(r, k + 1, i)
    requires r.states[k].nodes[i].role != Leader && r.states[k + 1].nodes[i].role == Leader
    ensures var (s, step) := (r.states[k].nodes[i], r.steps[k]);
            && s.role == Candidate && step.Deliver? && step.p.dst == i && CountsVote(s, step.p)
            && |GrantedSet(s.granted) + {step.p.src}| + 1 > n / 2
  {
    assert StepsTo(n, r, k);
    EffectElects(n, r.states[k], r.steps[k]);
    QueueHoldsOne(n, r, k, i);
    LeadershipIsMajority(n, r, k, i, r.steps[k].p);
  }

  // ---------------------------------------------------------------- the re-injection queue

  ghost predicate QueueOk(s: NodeState) {
    |s.queue| <= 1 && (s.queue != [] ==> s.role == Follower)
  }

  lemma {:induction false} ReceiveQueueOk(n: int, i: int, s: NodeState, p: Packet)
    requires Shaped(n, i, s) && Defined(n, i, s, p) && s.queue == []
    ensures QueueOk(Receive(n, i, s, p).node)
    ensures s.role == Follower ==> Receive(n, i, s, p).node.queue == []
  {
  }

  lemma {:induction false} EffectQueueOk(n: int, c: Cluster, step: Step)
    requires Enabled(n, c, step) && QueueOk(c.nodes[Actor(step)])
    ensures QueueOk(Effect(n, c, step).node)
    ensures step.Resume? ==> Effect(n, c, step).node.queue == []
  {
    var (i, s) := (Actor(step), Before(c, step));
    if Handling(c, step).Some? {
      ReceiveQueueOk(n, i, s, Handling(c, step).value);
      hide Receive;
    }
  }

  /** In any run the queue holds at most one message, only on a follower, and resuming it empties the queue. */
  lemma {:induction false} QueueHoldsOne(n: int, r: Run, k: nat, i: int)
    requires IsRun(n, r) && NodeIn(r, k, i)
    ensures QueueOk(r.states[k].nodes[i])
    ensures k < |r.steps| && r.steps[k] == Resume(i) ==> NodeIn(r, k + 1, i) && r.states[k + 1].nodes[i].queue == []
  {
    if k > 0 {
      SameNodes(n, r, k - 1);
      SameNodes(n, r, k);
      assert StepsTo(n, r, k - 1);
      QueueHoldsOne(n, r, k - 1, i);
      if i == Actor(r.steps[k - 1]) {
        EffectQueueOk(n, r.states[k - 1], r.steps[k - 1]);
      }
    }
    if k < |r.steps| && r.steps[k] == Resume(i) {
      assert StepsTo(n, r, k);
      SameNodes(n, r, k + 1);
      EffectQueueOk(n, r.states[k], r.steps[k]);
    }
  }

  /** A message that makes a candidate or leader put it back and turn follower. */
  predicate PutsBack(s: NodeState, p: Packet) {
    StepsDown(s, p) || (s.role == Candidate && p.msg.AppendEntries? && p.msg.term == s.term)
  }

  /**
    Stepping down and resuming the message ends in the state, and sends the replies, that a follower with the
    same memory reaches by receiving it at once.
   */
  lemma {:induction false} StepDownIsDirect(n: int, i: int, s: NodeState, p: Packet)
    requires Shaped(n, i, s) && s.queue == [] && 0 <= p.src < n && PutsBack(s, p)
    ensures Defined(n, i, s, p)
    ensures var (down, direct) := (Receive(n, i, s, p), FreshCycle(n, s.(role := Follower)));
            && down.sends == [] && down.node.queue == [p] && down.node.role == Follower
            && down.node.crashed == s.crashed
            && (Defined(n, i, down.node.(queue := []), p) <==> Defined(n, i, direct, p))
            && (Defined(n, i, direct, p) ==>
                  Receive(n, i, down.node.(queue := []), p) == Receive(n, i, direct, p))
  {
    var down := Receive(n, i, s, p).node.(queue := []);
    var direct := FreshCycle(n, s.(role := Follower));
    assert AdoptTerm(down, p.msg.term) == AdoptTerm(direct, p.msg.term);
  }

  /** Node i does not read its queue from step j up to step k. */
  ghost predicate NoResume(r: Run, j: nat, k: nat, i: int) {
    forall m {:trigger r.steps[m]} | j <= m < k && m < |r.steps| :: r.steps[m] != Resume(i)
  }

  lemma {:induction false} WaitsForResume(n: int, r: Run, j: nat, k: nat, i: int)
    requires IsRun(n, r) && j <= k < |r.states| && NodeIn(r, j, i) && NoResume(r, j, k, i)
    requires r.states[j].nodes[i].queue != [] && !r.states[j].nodes[i].crashed
    ensures NodeIn(r, k, i) && r.states[k].nodes[i] == r.states[j].nodes[i]
  {
    if j < k {
      WaitsForResume(n, r, j, k - 1, i);
      assert StepsTo(n, r, k - 1);
      SameNodes(n, r, k - 1);
      assert r.steps[k - 1] != Resume(i);
    }
  }

  /**
    When node i puts message p back in step j and reads it again in step k, then whatever the cluster did in
    between, i ends in the state and sends the replies of a follower with the memory i had in j that receives p.
   */
  lemma {:induction false} ReinjectionIsDirect(n: int, r: Run, j: nat, k: nat, i: int, p: Packet)
    requires IsRun(n, r) && j < k < |r.steps| && NodeIn(r, j, i)
    requires r.steps[j] == Deliver(p) && p.dst == i && !r.states[j].nodes[i].crashed
    requires PutsBack(r.states[j].nodes[i], p)
    requires r.steps[k] == Resume(i) && NoResume(r, j + 1, k, i)
    ensures var direct := FreshCycle(n, r.states[j].nodes[i].(role := Follower));
            && StepsTo(n, r, k) && NodeIn(r, k + 1, i)
            && Shaped(n, i, direct) && Defined(n, i, direct, p)
            && Receive(n, i, direct, p) == Outcome(r.states[k + 1].nodes[i], Effect(n, r.states[k], r.steps[k]).sends)
  {
    var s := r.states[j].nodes[i];
    assert StepsTo(n, r, j) && StepsTo(n, r, k);
    SameNodes(n, r, j);
    SameNodes(n, r, j + 1);
    StepDownIsDirect(n, i, s, p);
    var down := Receive(n, i, s, p).node;
    assert r.states[j + 1].nodes[i] == down && !down.crashed;
    WaitsForResume(n, r, j + 1, k, i);
    assert [p][1..] == [];
    assert Before(r.states[k], r.steps[k]) == down.(queue := []);
  }

  // ---------------------------------------------------------------- the election restriction

  /** (t, x) is at least (u, y), term first. */
  predicate AtLeast(t: int, x: int, u: int, y: int) {
    t > u || (t == u && x >= y)
  }

  lemma {:induction false} GrantIsLexicographic(cand: seq<Entry>, voter: seq<Entry>)
    requires forall k | 0 <= k < |cand| :: cand[k].term >= 1
    requires forall k | 0 <= k < |voter| :: voter[k].term >= 1
    ensures UpToDate(cand, voter) <==> AtLeast(LastTerm(cand), |cand| - 1, LastTerm(voter), |voter| - 1)
    ensures UpToDate(cand, voter) || UpToDate(voter, cand)
  {
  }

  ghost function LogAt(r: Run, k: nat, i: int): seq<Entry>
    requires NodeIn(r, k, i)
  {
    r.states[k].nodes[i].log
  }

  /** On the logs of a run, whoever's and whenever, being up to date is a total preorder: last term, then last index. */
  lemma {:induction false} UpToDateIsPreorder(n: int, r: Run, j: nat, a: int, k: nat, b: int, l: nat, c: int)
    requires IsRun(n, r) && NodeIn(r, j, a) && NodeIn(r, k, b) && NodeIn(r, l, c)
    ensures var (x, y, z) := (LogAt(r, j, a), LogAt(r, k, b), LogAt(r, l, c));
            && (UpToDate(x, y) <==> AtLeast(LastTerm(x), |x| - 1, LastTerm(y), |y| - 1))
            && (UpToDate(x, y) || UpToDate(y, x))
            && (UpToDate(x, y) && UpToDate(y, z) ==> UpToDate(x, z))
  {
    LogTermsClimb(n, r, j, a);
    LogTermsClimb(n, r, k, b);
    LogTermsClimb(n, r, l, c);
    GrantIsLexicographic(LogAt(r, j, a), LogAt(r, k, b));
    GrantIsLexicographic(LogAt(r, k, b), LogAt(r, l, c));
    GrantIsLexicographic(LogAt(r, j, a), LogAt(r, l, c));
  }

  lemma {:induction false} FirstGrant(n: int, i: int, s: NodeState, p: Packet)
    requires NodeClimbs(n, i, s) && PacketClimbs(n, p) && Defined(n, i, s, p)
    requires s.role == Follower && p.msg.RequestVote? && p.msg.term >= s.term
    requires AdoptTerm(s, p.msg.term).votedFor.None?
    ensures var grants := AtLeast(p.msg.lastLogTerm, p.msg.lastLogIndex, LastTerm(s.log), |s.log| - 1);
            var o := Receive(n, i, s, p);
            && o.node.votedFor == (if grants then Some(p.src) else None)
            && o.sends == [Send(p.src, RequestVoteResponse(p.msg.term, grants))]
  {
    var m := p.msg;
    assert Grants(s.log, m.lastLogIndex, m.lastLogTerm)
           <==> AtLeast(m.lastLogTerm, m.lastLogIndex, LastTerm(s.log), |s.log| - 1);
  }

  /**
    A follower that has not voted in the request's term grants it, and says so, exactly when the candidate's last
    term and index are at least its own, in that order; empty logs, with -1 for both, included.
   */
  lemma {:induction false} ElectionRestriction(n: int, r: Run, k: nat, i: int, p: Packet)
    requires IsRun(n, r) && k < |r.steps| && StepsTo(n, r, k) && Actor(r.steps[k]) == i
    requires Handling(r.states[k], r.steps[k]) == Some(p) && NodeIn(r, k + 1, i)
    requires var s := Before(r.states[k], r.steps[k]);
             s.role == Follower && p.msg.RequestVote? && p.msg.term >= s.term
             && AdoptTerm(s, p.msg.term).votedFor.None?
    ensures var (s, s') := (Before(r.states[k], r.steps[k]), r.states[k + 1].nodes[i]);
            var grants := AtLeast(p.msg.lastLogTerm, p.msg.lastLogIndex, LastTerm(s.log), |s.log| - 1);
            && s'.votedFor == (if grants then Some(p.src) else None)
            && Effect(n, r.states[k], r.steps[k]).sends == [Send(p.src, RequestVoteResponse(p.msg.term, grants))]
  {
    TermsHold(n, r, k);
    TermsReady(n, r.states[k], r.steps[k]);
    FirstGrant(n, i, Before(r.states[k], r.steps[k]), p);
  }
}
