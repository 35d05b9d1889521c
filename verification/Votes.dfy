/** The votes of a candidacy, from its first to the one that wins, for any number of nodes and in any run. */
module Votes {
  import opened Types
  import opened NodeSpec
  import opened Clusters
  import opened History
  import opened Terms
  import opened NodeFacts
  import opened Broadcasts
  import opened Answers

  /** A vote given to node i, a candidate of term t that is up, by the node that sends p. */
  predicate IsVote(s: NodeState, t: int, p: Packet) {
    && s.role == Candidate && s.term == t && !s.crashed
    && p.msg.RequestVoteResponse? && p.msg.voteGranted && p.msg.term <= t
  }

  /** The nodes that a step adds to the voters of node i in term t. */
  ghost function Adds(c: Cluster, step: Step, i: int, t: int): set<int>
    requires 0 <= i < |c.nodes|
  {
    if step.Deliver? && step.p.dst == i && IsVote(c.nodes[i], t, step.p) then {step.p.src} else {}
  }

  /** The nodes whose votes reached node i, as a candidate of term t, in the first k steps. */
  ghost function Voters(n: int, r: Run, k: nat, i: int, t: int): set<int>
    requires IsRun(n, r) && k <= |r.steps| && 0 <= i < n
  {
    if k == 0 then {}
    else
      SameNodes(n, r, k - 1);
      Voters(n, r, k - 1, i, t) + Adds(r.states[k - 1], r.steps[k - 1], i, t)
  }

  /** A candidate's marks are these nodes, with itself no majority; a leader has had a majority with itself. */
  ghost predicate Counted(n: int, s: NodeState, voters: set<int>) {
    && (s.role == Candidate ==> GrantedSet(s.granted) == voters && |voters| + 1 <= n / 2)
    && (s.role == Leader ==> |voters| + 1 > n / 2)
  }

  // ---------------------------------------------------------------- one step

  lemma {:induction false} NoMarks(granted: seq<bool>)
    requires forall v | 0 <= v < |granted| :: !granted[v]
    ensures GrantedSet(granted) == {}
  {
  }

  lemma {:induction false} MessageCounts(n: int, i: int, s: NodeState, p: Packet, s': NodeState, sends: seq<Send>,
                                         voters: set<int>)
    requires n >= 2 && s.role == Candidate && CandidateAnswer(n, i, s, p, s', sends) && Counted(n, s, voters)
    ensures s'.role != Follower ==>
              s'.term == s.term
              && Counted(n, s', voters + if p.msg.RequestVoteResponse? && p.msg.voteGranted && p.msg.term <= s.term
                                         then {p.src} else {})
  {
    hide Updating;
  }

  /** What a step makes of the count of its node's votes. */
  ghost predicate Tallies(n: int, s: NodeState, s': NodeState, voters: set<int>, adds: set<int>) {
    && s'.term >= s.term
    && (s'.term == s.term && s'.role != Follower ==> s.role != Follower && Counted(n, s', voters + adds))
    && (s'.term > s.term && s'.role != Follower ==> s'.role == Candidate && GrantedSet(s'.granted) == {})
  }

  lemma {:induction false} MessageTallies(n: int, c: Cluster, step: Step, voters: set<int>)
    requires n >= 2 && Enabled(n, c, step) && Handling(c, step).Some?
    requires CountOk(c.nodes[Actor(step)]) && QueueOk(c.nodes[Actor(step)])
    requires Counted(n, c.nodes[Actor(step)], voters)
    ensures var (i, s) := (Actor(step), c.nodes[Actor(step)]);
            Tallies(n, s, Effect(n, c, step).node, voters, Adds(c, step, i, s.term))
  {
    var (i, b, p) := (Actor(step), Before(c, step), Handling(c, step).value);
    match b.role {
      case Follower => FollowerAnswers(n, i, b, p);
      case Candidate =>
        CandidateAnswers(n, i, b, p);
        MessageCounts(n, i, b, p, Receive(n, i, b, p).node, Receive(n, i, b, p).sends, voters);
      case Leader => LeaderAnswers(n, i, b, p);
    }
    hide Receive;
  }

  lemma {:induction false} EffectTallies(n: int, c: Cluster, step: Step, voters: set<int>)
    requires n >= 2 && Enabled(n, c, step)
    requires CountOk(c.nodes[Actor(step)]) && QueueOk(c.nodes[Actor(step)])
    requires Counted(n, c.nodes[Actor(step)], voters)
    ensures var (i, s) := (Actor(step), c.nodes[Actor(step)]);
            Tallies(n, s, Effect(n, c, step).node, voters, Adds(c, step, i, s.term))
  {
    var s := c.nodes[Actor(step)];
    if Handling(c, step).Some? {
      MessageTallies(n, c, step, voters);
    } else {
      assert Adds(c, step, Actor(step), s.term) == {} && voters + {} == voters;
      if StandsAnew(s, step) {
        EffectStands(n, c, step);
        NoMarks(Effect(n, c, step).node.granted);
        hide Effect;
      }
    }
  }

  // ---------------------------------------------------------------- runs

  lemma {:induction false} StepTallies(n: int, r: Run, k: nat, i: int, voters: set<int>)
    requires IsRun(n, r) && k < |r.steps| && NodeIn(r, k, i) && i < n && Counted(n, r.states[k].nodes[i], voters)
    ensures NodeIn(r, k + 1, i)
    ensures var (s, s', adds) := (r.states[k].nodes[i], r.states[k + 1].nodes[i],
                                  Adds(r.states[k], r.steps[k], i, r.states[k].nodes[i].term));
            if Actor(r.steps[k]) == i then Tallies(n, s, s', voters, adds) else s' == s && adds == {}
  {
    assert StepsTo(n, r, k);
    if i == Actor(r.steps[k]) {
      VoteCountIsCardinality(n, r, k, i);
      QueueHoldsOne(n, r, k, i);
      EffectTallies(n, r.states[k], r.steps[k], voters);
    }
    hide Effect, Enabled, Tallies;
  }

  /** The voters of node i in its term are those it has counted, and it has none in a later term. */
  ghost predicate Tallied(n: int, r: Run, k: nat, i: int)
    requires IsRun(n, r) && NodeIn(r, k, i) && i < n
  {
    var s := r.states[k].nodes[i];
    && Counted(n, s, Voters(n, r, k, i, s.term))
    && forall t | t > s.term :: Voters(n, r, k, i, t) == {}
  }

  lemma {:induction false} OtherTerm(c: Cluster, step: Step, i: int, t: int)
    requires 0 <= i < |c.nodes| && t != c.nodes[i].term
    ensures Adds(c, step, i, t) == {}
  {
  }

  lemma {:induction false} VotersStep(n: int, r: Run, k: nat, i: int, t: int)
    requires IsRun(n, r) && k < |r.steps| && NodeIn(r, k, i) && i < n
    ensures Voters(n, r, k + 1, i, t)
            == Voters(n, r, k, i, t)
               + if t == r.states[k].nodes[i].term then Adds(r.states[k], r.steps[k], i, t) else {}
  {
    if t != r.states[k].nodes[i].term {
      OtherTerm(r.states[k], r.steps[k], i, t);
    }
  }

  lemma {:induction false} VotesTallied(n: int, r: Run, k: nat, i: int)
    requires IsRun(n, r) && NodeIn(r, k, i) && i < n
    ensures Tallied(n, r, k, i)
  {
    if k > 0 {
      SameNodes(n, r, k - 1);
      VotesTallied(n, r, k - 1, i);
      var (s, s') := (r.states[k - 1].nodes[i], r.states[k].nodes[i]);
      StepTallies(n, r, k - 1, i, Voters(n, r, k - 1, i, s.term));
      VotersStep(n, r, k - 1, i, s'.term);
      hide Voters, Adds, StepsTo;
      forall t | t > s'.term ensures Voters(n, r, k, i, t) == {} {
        VotersStep(n, r, k - 1, i, t);
      }
    }
  }

  lemma {:induction false} VotersAreOthers(n: int, r: Run, k: nat, i: int, t: int)
    requires IsRun(n, r) && k <= |r.steps| && 0 <= i < n
    ensures forall v | v in Voters(n, r, k, i, t) :: 0 <= v < n && v != i
  {
    if k > 0 {
      VotersAreOthers(n, r, k - 1, i, t);
      assert StepsTo(n, r, k - 1);
      TermsHold(n, r, k - 1);
      assert r.steps[k - 1].Deliver? ==> PacketClimbs(n, r.steps[k - 1].p);
      hide StepsTo, TermsInv, IsRun;
    }
  }

  /**
    In any run, the marks of a candidate are exactly the senders of the granted votes that reached it in its present
    candidacy, and with itself they are not more than half the nodes; a leader has had the votes of more.
   */
  lemma {:induction false} MarksAreVoters(n: int, r: Run, k: nat, i: int)
    requires IsRun(n, r) && NodeIn(r, k, i) && i < n
    ensures var s := r.states[k].nodes[i];
            var voters := Voters(n, r, k, i, s.term);
            && (forall v | v in voters :: 0 <= v < n && v != i)
            && (s.role == Candidate ==> GrantedSet(s.granted) == voters && |voters| + 1 <= n / 2)
            && (s.role == Leader ==> |voters| + 1 > n / 2)
  {
    VotesTallied(n, r, k, i);
    VotersAreOthers(n, r, k, i, r.states[k].nodes[i].term);
  }

  /**
    In any run a candidate marks each granted vote that comes, wins with the first that makes a majority, gives way to
    a higher term or to a leader of its own, and passes over the rest.
   */
  lemma {:induction false} CandidatesAnswer(n: int, r: Run, k: nat, i: int, p: Packet)
    requires IsRun(n, r) && HandlesIn(n, r, k, i, p) && r.states[k].nodes[i].role == Candidate
    ensures CandidateAnswer(n, i, r.states[k].nodes[i], p, r.states[k + 1].nodes[i], SendsAt(n, r, k))
  {
    assert StepsTo(n, r, k);
    QueueHoldsOne(n, r, k, i);
    VoteCountIsCardinality(n, r, k, i);
    VotesTallied(n, r, k, i);
    CandidateAnswers(n, i, r.states[k].nodes[i], p);
    hide Receive, CandidateAnswer;
  }
}
