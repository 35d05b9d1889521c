/** What a leader has to commit, answer and append, for any number of nodes and in any run. */
module Progress {
  import opened Types
  import opened NodeSpec
  import opened Clusters
  import opened BaseProof
  import opened BaseStep
  import opened Sends
  import opened Terms
  import opened Moves
  import opened NodeFacts
  import opened Broadcasts
  import opened Safety
  import opened Replication

  /** The nodes known to have the entry at x, the leader included. */
  ghost function Holders(n: int, i: int, s: NodeState, x: int): set<int> {
    set v | 0 <= v < n && (v == i || (v < |s.matchIndex| && s.matchIndex[v] >= x))
  }

  /** A leader leaves no index uncommitted that a majority is known to have. */
  ghost predicate AllCommitted(n: int, i: int, s: NodeState) {
    s.role == Leader ==> |Holders(n, i, s, s.commitIndex + 1)| <= n / 2
  }

  // ---------------------------------------------------------------- commitIndex lies inside the log

  ghost predicate CommitFloor(m: Message) {
    m.AppendEntries? ==> m.leaderCommit >= -1
  }

  ghost predicate FloorInv(n: int, c: Cluster) {
    && TermsInv(n, c)
    && (forall i | 0 <= i < n :: -1 <= c.nodes[i].commitIndex < |c.nodes[i].log|)
    && (forall i, p | 0 <= i < n && p in c.nodes[i].queue :: CommitFloor(p.msg))
    && (forall p | p in c.net :: CommitFloor(p.msg))
  }

  lemma {:induction false} AcceptInside(n: int, i: int, s: NodeState, p: Packet)
    requires Shaped(n, i, s) && Defined(n, i, s, p) && Accepted(s, Some(p))
    ensures p.msg.leaderCommit < Total(p.msg)
  {
  }

  lemma {:induction false} EffectFloor(n: int, c: Cluster, step: Step)
    requires FloorInv(n, c) && Enabled(n, c, step)
    ensures -1 <= Effect(n, c, step).node.commitIndex < |Effect(n, c, step).node.log|
    ensures forall snd | snd in Effect(n, c, step).sends :: CommitFloor(snd.msg)
  {
    var s := Before(c, step);
    assert NodeClimbs(n, Actor(step), c.nodes[Actor(step)]);
    if Handling(c, step).Some? {
      TermsReady(n, c, step);
      if step.Resume? {
        assert Handling(c, step).value in c.nodes[Actor(step)].queue;
      }
      if Accepted(s, Handling(c, step)) {
        AcceptInside(n, Actor(step), s, Handling(c, step).value);
      }
    }
    EffectSends(n, c, step);
    EffectMoves(n, c, step);
    hide Effect;
  }

  lemma {:induction false} FloorStepKept(n: int, c: Cluster, step: Step)
    requires FloorInv(n, c) && Enabled(n, c, step)
    ensures FloorInv(n, Apply(n, c, step))
  {
    var c' := Apply(n, c, step);
    TermsStepKept(n, c, step);
    EffectFloor(n, c, step);
    forall p | p in c'.net ensures CommitFloor(p.msg) {
      if p !in c.net {
        Stamped(Actor(step), c.nextId, Effect(n, c, step).sends, p);
      }
    }
    forall i, p | 0 <= i < n && p in c'.nodes[i].queue ensures CommitFloor(p.msg) {
      if i == Actor(step) {
        QueueFrom(n, c, step, p);
      }
    }
    hide Effect, TermsInv;
  }

  lemma {:induction false} FloorHolds(n: int, r: Run, k: nat)
    requires IsRun(n, r) && k < |r.states|
    ensures FloorInv(n, r.states[k])
  {
    if k == 0 {
      TermsHold(n, r, 0);
    } else {
      assert StepsTo(n, r, k - 1);
      FloorHolds(n, r, k - 1);
      FloorStepKept(n, r.states[k - 1], r.steps[k - 1]);
    }
  }

  // ---------------------------------------------------------------- nothing is left uncommitted

  lemma {:induction false} HoldersAreMatched(n: int, i: int, s: NodeState, x: int)
    requires |s.matchIndex| == n
    ensures Holders(n, i, s, x) == Matched(n, i, s.matchIndex, x)
  {
  }

  lemma {:induction false} LoopCommitsAll(n: int, i: int, d: NodeState)
    requires Shaped(n, i, d) && DefinedCommit(n, i, d)
    ensures AllCommitted(n, i, CommitLoop(n, i, d))
  {
    var s := CommitLoop(n, i, d);
    CommitTargetReached(n, i, d.matchIndex, d.commitIndex);
    CommitTargetStops(n, i, d.matchIndex, d.commitIndex);
    assert s.matchIndex == d.matchIndex && s.commitIndex == CommitTarget(n, i, d.matchIndex, d.commitIndex);
    HoldersAreMatched(n, i, s, s.commitIndex + 1);
    hide CommitLoop, Matched, Holders;
  }

  lemma {:induction false} MessageCommitsAll(n: int, i: int, s: NodeState, p: Packet)
    requires Shaped(n, i, s) && Defined(n, i, s, p) && s.commitIndex >= -1
    ensures AllCommitted(n, i, Receive(n, i, s, p).node)
  {
    var s' := Receive(n, i, s, p).node;
    if s'.role == Leader {
      if s.role == Leader {
        LoopCommitsAll(n, i, HandleAck(i, AdoptTerm(s, p.msg.term), p).node);
        hide HandleAck, CommitLoop, AllCommitted, DefinedCommit;
      } else {
        WinnerUpdates(n, i, s, p);
        ReceiveMoves(n, i, s, p);
        hide Receive, Updating;
        assert Holders(n, i, s', s'.commitIndex + 1) == {i};
      }
    }
  }

  lemma {:induction false} EffectCommitsAll(n: int, c: Cluster, step: Step)
    requires FloorInv(n, c) && Enabled(n, c, step) && AllCommitted(n, Actor(step), c.nodes[Actor(step)])
    ensures AllCommitted(n, Actor(step), Effect(n, c, step).node)
  {
    if Handling(c, step).Some? {
      MessageCommitsAll(n, Actor(step), Before(c, step), Handling(c, step).value);
      hide Receive, AllCommitted;
    }
  }

  lemma {:induction false} AllCommittedAt(n: int, r: Run, k: nat, i: int)
    requires IsRun(n, r) && NodeIn(r, k, i)
    ensures AllCommitted(n, i, r.states[k].nodes[i])
  {
    if k > 0 {
      SameNodes(n, r, k - 1);
      SameNodes(n, r, k);
      assert StepsTo(n, r, k - 1);
      AllCommittedAt(n, r, k - 1, i);
      if i == Actor(r.steps[k - 1]) {
        FloorHolds(n, r, k - 1);
        EffectCommitsAll(n, r.states[k - 1], r.steps[k - 1]);
      }
      hide Effect, AllCommitted, FloorInv;
    }
  }

  lemma {:induction false} HoldersShrink(n: int, i: int, s: NodeState, x: int, y: int)
    requires x <= y
    ensures Holders(n, i, s, y) <= Holders(n, i, s, x) && |Holders(n, i, s, y)| <= |Holders(n, i, s, x)|
  {
    SubsetSize(Holders(n, i, s, y), Holders(n, i, s, x));
  }

  /** In any run, no leader leaves an index uncommitted that it knows a majority, itself included, to have. */
  lemma {:induction false} NothingLeftUncommitted(n: int, r: Run, k: nat, i: int, x: int)
    requires IsRun(n, r) && NodeIn(r, k, i) && r.states[k].nodes[i].role == Leader
    requires |Holders(n, i, r.states[k].nodes[i], x)| > n / 2
    ensures x <= r.states[k].nodes[i].commitIndex
  {
    AllCommittedAt(n, r, k, i);
    if x > r.states[k].nodes[i].commitIndex {
      HoldersShrink(n, i, r.states[k].nodes[i], r.states[k].nodes[i].commitIndex + 1, x);
    }
    hide Holders;
  }

  // ---------------------------------------------------------------- a leadership from one moment to another

  /** What was committed in between was saved and its clients were answered, each once and in the order of the log. */
  ghost predicate Recorded(s: NodeState, s': NodeState) {
    && -1 <= s.commitIndex <= s'.commitIndex < |s'.log|
    && s'.saved == s.saved + s'.log[s.commitIndex + 1..s'.commitIndex + 1]
    && |s'.replied| == |s.replied| + s'.commitIndex - s.commitIndex && s.replied <= s'.replied
    && forall x | s.commitIndex < x <= s'.commitIndex ::
         s'.replied[|s.replied| + x - s.commitIndex - 1] == s'.log[x].clientId
  }

  lemma {:induction false} RecordedTwice(a: NodeState, b: NodeState, c: NodeState)
    requires Recorded(a, b) && Recorded(b, c) && b.log <= c.log
    ensures Recorded(a, c)
  {
    SameSlice(b.log, c.log, a.commitIndex + 1, b.commitIndex + 1);
    assert c.log[a.commitIndex + 1..b.commitIndex + 1] + c.log[b.commitIndex + 1..c.commitIndex + 1]
           == c.log[a.commitIndex + 1..c.commitIndex + 1];
    forall x | a.commitIndex < x <= c.commitIndex
      ensures c.replied[|a.replied| + x - a.commitIndex - 1] == c.log[x].clientId
    {
      if x <= b.commitIndex {
        assert b.replied[|a.replied| + x - a.commitIndex - 1] == b.log[x].clientId;
      } else {
        assert c.replied[|b.replied| + x - b.commitIndex - 1] == c.log[x].clientId;
      }
    }
  }

  lemma {:induction false} LoopRecords(n: int, i: int, d: NodeState)
    requires Shaped(n, i, d) && DefinedCommit(n, i, d)
    ensures Recorded(d, CommitLoop(n, i, d)) && CommitLoop(n, i, d).log == d.log
  {
    CommitTargetReached(n, i, d.matchIndex, d.commitIndex);
    hide CommitTarget;
  }

  lemma {:induction false} MessageRecords(n: int, i: int, s: NodeState, p: Packet)
    requires Shaped(n, i, s) && Defined(n, i, s, p) && s.role == Leader && -1 <= s.commitIndex < |s.log|
    requires Receive(n, i, s, p).node.role == Leader
    ensures Recorded(s, Receive(n, i, s, p).node) && Receive(n, i, s, p).node.log == s.log
  {
    var d := HandleAck(i, AdoptTerm(s, p.msg.term), p).node;
    LoopRecords(n, i, d);
    assert d.log == s.log && d.saved == s.saved && d.replied == s.replied && d.commitIndex == s.commitIndex;
    hide HandleAck, CommitLoop, DefinedCommit;
  }

  /** The entry that a step adds to the log of a leader, if it is a client's command to it. */
  function Added(step: Step, i: int, s: NodeState): seq<Entry> {
    if step.ClientRequest? && step.i == i then [Entry(|s.log|, s.term, step.cmd, step.clientId)] else []
  }

  lemma {:induction false} NothingNew(s: NodeState, s': NodeState)
    requires -1 <= s.commitIndex == s'.commitIndex < |s.log| && s.log <= s'.log
    requires s'.saved == s.saved && s'.replied == s.replied
    ensures Recorded(s, s')
  {
  }

  lemma {:induction false} QuietRecords(n: int, c: Cluster, step: Step)
    requires FloorInv(n, c) && Enabled(n, c, step) && Handling(c, step).None?
    requires c.nodes[Actor(step)].role == Leader
    ensures var (s, s') := (c.nodes[Actor(step)], Effect(n, c, step).node);
            Recorded(s, s') && s'.log == s.log + Added(step, Actor(step), s)
  {
    var (s, s') := (c.nodes[Actor(step)], Effect(n, c, step).node);
    assert s'.log == s.log + Added(step, Actor(step), s) && s'.commitIndex == s.commitIndex;
    assert s'.saved == s.saved && s'.replied == s.replied;
    NothingNew(s, s');
    hide Effect, Recorded;
  }

  lemma {:induction false} EffectRecords(n: int, c: Cluster, step: Step)
    requires FloorInv(n, c) && Enabled(n, c, step) && QueueOk(c.nodes[Actor(step)])
    requires c.nodes[Actor(step)].role == Leader && Effect(n, c, step).node.role == Leader
    ensures var (s, s') := (c.nodes[Actor(step)], Effect(n, c, step).node);
            Recorded(s, s') && s'.log == s.log + Added(step, Actor(step), s)
  {
    hide Recorded;
    if Handling(c, step).Some? {
      MessageRecords(n, Actor(step), c.nodes[Actor(step)], Handling(c, step).value);
      hide Receive;
    } else {
      QuietRecords(n, c, step);
    }
  }

  /** The entries made of the client requests that reach node i from state j to state k, the first at this index. */
  ghost function Received(r: Run, j: nat, k: nat, i: int, first: int, t: int): seq<Entry>
    requires k <= |r.steps|
  {
    if k <= j then []
    else
      var (before, step) := (Received(r, j, k - 1, i, first, t), r.steps[k - 1]);
      before + if step.ClientRequest? && step.i == i
               then [Entry(first + |before|, t, step.cmd, step.clientId)] else []
  }

  lemma {:induction false} StepRecords(n: int, r: Run, k: nat, i: int, t: int)
    requires IsRun(n, r) && LeadsAt(r, k, i, t) && LeadsAt(r, k + 1, i, t)
    ensures var (s, s', step) := (NodeAt(r, k, i), NodeAt(r, k + 1, i), r.steps[k]);
            Recorded(s, s') && s'.log == s.log + if Actor(step) == i then Added(step, i, s) else []
  {
    hide Recorded;
    assert StepsTo(n, r, k);
    FloorHolds(n, r, k);
    if Actor(r.steps[k]) == i {
      QueueHoldsOne(n, r, k, i);
      EffectRecords(n, r.states[k], r.steps[k]);
    } else {
      NothingNew(NodeAt(r, k, i), NodeAt(r, k + 1, i));
    }
    hide Effect;
  }

  lemma {:induction false} LeadershipStep(n: int, r: Run, j: nat, k: nat, i: int, t: int)
    requires IsRun(n, r) && j <= k && LeadsAt(r, j, i, t) && LeadsAt(r, k, i, t) && LeadsAt(r, k + 1, i, t)
    requires NodeAt(r, k, i).log == NodeAt(r, j, i).log + Received(r, j, k, i, |NodeAt(r, j, i).log|, t)
    requires Recorded(NodeAt(r, j, i), NodeAt(r, k, i))
    ensures NodeAt(r, k + 1, i).log == NodeAt(r, j, i).log + Received(r, j, k + 1, i, |NodeAt(r, j, i).log|, t)
    ensures Recorded(NodeAt(r, j, i), NodeAt(r, k + 1, i))
  {
    StepRecords(n, r, k, i, t);
    RecordedTwice(NodeAt(r, j, i), NodeAt(r, k, i), NodeAt(r, k + 1, i));
    hide Recorded, IsRun;
  }

  lemma {:induction false} InsideAt(n: int, r: Run, k: nat, i: int)
    requires IsRun(n, r) && NodeIn(r, k, i)
    ensures -1 <= r.states[k].nodes[i].commitIndex < |r.states[k].nodes[i].log|
  {
    FloorHolds(n, r, k);
  }

  /**
    In any run, from one moment of a leadership to a later one, the leader has appended the clients' commands that
    reached it and nothing else, and it has saved and answered exactly the entries it has committed in between.
   */
  lemma {:induction false} LeadershipRecord(n: int, r: Run, j: nat, k: nat, i: int, t: int)
    requires IsRun(n, r) && j <= k && LeadsAt(r, j, i, t) && LeadsAt(r, k, i, t)
    ensures NodeAt(r, k, i).log == NodeAt(r, j, i).log + Received(r, j, k, i, |NodeAt(r, j, i).log|, t)
    ensures Recorded(NodeAt(r, j, i), NodeAt(r, k, i))
  {
    if j == k {
      InsideAt(n, r, k, i);
      NothingNew(NodeAt(r, j, i), NodeAt(r, k, i));
    } else {
      SameNodes(n, r, k - 1);
      SameNodes(n, r, k);
      OneVotePerTerm(n, r, j, k - 1, i);
      OneVotePerTerm(n, r, k - 1, k, i);
      LeadsStill(n, r, j, k - 1, i, t);
      LeadershipRecord(n, r, j, k - 1, i, t);
      LeadershipStep(n, r, j, k - 1, i, t);
    }
    hide IsRun, Recorded;
  }

  // ---------------------------------------------------------------- exactly what a majority has

  lemma {:induction false} StepHolders(n: int, r: Run, k: nat, i: int, t: int, x: int)
    requires IsRun(n, r) && LeadsAt(r, k, i, t) && LeadsAt(r, k + 1, i, t)
    requires NodeAt(r, k, i).commitIndex < x <= NodeAt(r, k + 1, i).commitIndex
    ensures |Holders(n, i, NodeAt(r, k + 1, i), x)| > n / 2
  {
    assert StepsTo(n, r, k);
    var s' := NodeAt(r, k + 1, i);
    EffectMoves(n, r.states[k], r.steps[k]);
    assert |s'.matchIndex| == n && |Matched(n, i, s'.matchIndex, s'.commitIndex)| > n / 2;
    hide Effect, Moved, Holders, Matched;
    HoldersAreMatched(n, i, s', s'.commitIndex);
    HoldersShrink(n, i, s', x, s'.commitIndex);
  }

  lemma {:induction false} HoldersStay(n: int, r: Run, j: nat, k: nat, i: int, t: int, x: int)
    requires Orderly(n, r) && j <= k && LeadsAt(r, j, i, t) && LeadsAt(r, k, i, t)
    ensures |Holders(n, i, NodeAt(r, j, i), x)| <= |Holders(n, i, NodeAt(r, k, i), x)|
  {
    forall v | v in Holders(n, i, NodeAt(r, j, i), x) ensures v in Holders(n, i, NodeAt(r, k, i), x) {
      MatchIndexMonotone(n, r, j, k, i, v, t);
    }
    SubsetSize(Holders(n, i, NodeAt(r, j, i), x), Holders(n, i, NodeAt(r, k, i), x));
  }

  lemma {:induction false} CommittedHeld(n: int, r: Run, j: nat, k: nat, i: int, t: int, x: int)
    requires Orderly(n, r) && j <= k && LeadsAt(r, j, i, t) && LeadsAt(r, k, i, t)
    requires NodeAt(r, j, i).commitIndex < x <= NodeAt(r, k, i).commitIndex
    ensures |Holders(n, i, NodeAt(r, k, i), x)| > n / 2
  {
    SameNodes(n, r, k - 1);
    SameNodes(n, r, k);
    OneVotePerTerm(n, r, j, k - 1, i);
    OneVotePerTerm(n, r, k - 1, k, i);
    LeadsStill(n, r, j, k - 1, i, t);
    hide Orderly, Holders;
    if x <= NodeAt(r, k - 1, i).commitIndex {
      CommittedHeld(n, r, j, k - 1, i, t, x);
      HoldersStay(n, r, k - 1, k, i, t, x);
    } else {
      StepHolders(n, r, k - 1, i, t, x);
    }
  }

  /**
    In an orderly run, of the indices above its commitIndex at some moment of its leadership, a leader has at any later
    moment of it committed exactly those that it then knows more than half the nodes, itself included, to have.
   */
  lemma {:induction false} CommitsExactlyMajorities(n: int, r: Run, j: nat, k: nat, i: int, t: int, x: int)
    requires Orderly(n, r) && j <= k && LeadsAt(r, j, i, t) && LeadsAt(r, k, i, t)
    requires x > NodeAt(r, j, i).commitIndex
    ensures x <= NodeAt(r, k, i).commitIndex <==> |Holders(n, i, NodeAt(r, k, i), x)| > n / 2
  {
    if x <= NodeAt(r, k, i).commitIndex {
      CommittedHeld(n, r, j, k, i, t, x);
    } else if |Holders(n, i, NodeAt(r, k, i), x)| > n / 2 {
      NothingLeftUncommitted(n, r, k, i, x);
    }
    hide Holders;
  }
}
