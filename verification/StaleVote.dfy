/**
  Fresh votes are needed: three nodes, every other hypothesis kept, and two leaders of one term.
  Node 0 stands in term 1 and, before node 2's vote arrives, in term 2. Node 2 then stands in term 2 and wins
  with node 1's vote; the old vote reaches node 0, which counts it for term 2.
 */
module StaleVote {
  import opened Types
  import opened Clusters
  import opened BaseRuns
  import opened Scripts
  import opened Openings

  const KEPT := EVERY.(votes := false)

  const Q3 := Packet(3, 0, 1, RequestVote(2, 0, -1, -1))
  const Q4 := Packet(4, 0, 2, RequestVote(2, 0, -1, -1))
  const Q5 := Packet(5, 2, 0, RequestVote(2, 2, -1, -1))
  const Q6 := Packet(6, 2, 1, RequestVote(2, 2, -1, -1))
  const Q7 := Packet(7, 1, 2, RequestVoteResponse(2, true))
  const Q8 := Packet(8, 2, 0, AppendEntries(2, 2, -1, 0, -1, []))
  const Q9 := Packet(9, 2, 1, AppendEntries(2, 2, -1, 0, -1, []))
  const Q10 := Packet(10, 0, 1, AppendEntries(2, 0, -1, 0, -1, []))
  const Q11 := Packet(11, 0, 2, AppendEntries(2, 0, -1, 0, -1, []))

  const N1 := Bare(Candidate, 2, Some(0), [], [-1, -1, -1], [0, 0, 0])
  const N2 := Bare(Candidate, 2, Some(2), [], [-1, -1, -1], [0, 0, 0])
  const N3 := Bare(Follower, 2, Some(2), [], [-1, -1, -1], [0, 0, 0])
  const N4 := Bare(Leader, 2, Some(2), [], [-1, -1, -1], [0, 0, 0])
  const N5 := Bare(Leader, 2, Some(0), [], [-1, -1, -1], [0, 0, 0])

  const D3 := Cluster([N1, START, VOTER], {P0, P2, Q3, Q4}, 5)
  const D4 := Cluster([N1, START, N2], {P0, P2, Q3, Q4, Q5, Q6}, 7)
  const D5 := Cluster([N1, N3, N2], {P0, P2, Q3, Q4, Q5, Q7}, 8)
  const D6 := Cluster([N1, N3, N4], {P0, P2, Q3, Q4, Q5, Q8, Q9}, 10)
  const D7 := Cluster([N5, N3, N4], {P0, Q3, Q4, Q5, Q8, Q9, Q10, Q11}, 12)

  lemma {:induction false} Play5() returns (r: Run)
    ensures Reaches(KEPT, r, D5)
  {
    hide Reaches, Takes, Expires;
    r := Voted(KEPT);
    r := ExpireTwo(KEPT, r, C2, 0, STANDING, N1, Q3, Q4, D3) by {
      Stands(0, STANDING, N1, Q3, Q4);
    }
    r := ExpireTwo(KEPT, r, D3, 2, VOTER, N2, Q5, Q6, D4) by {
      Stands(2, VOTER, N2, Q5, Q6);
    }
    r := DeliverOne(KEPT, r, D4, Q6, START, N3, Q7, D5) by {
      Votes(1, START, Q6, N3, Q7);
    }
  }

  lemma {:induction false} Play7() returns (r: Run)
    ensures Reaches(KEPT, r, D7)
  {
    hide Reaches, Takes, Expires;
    r := Play5();
    r := DeliverTwo(KEPT, r, D5, Q7, N2, N4, Q8, Q9, D6) by {
      Wins(2, N2, Q7, N4, Q8, Q9);
    }
    r := DeliverTwo(KEPT, r, D6, P2, N1, N5, Q10, Q11, D7) by {
      Wins(0, N1, P2, N5, Q10, Q11);
    }
  }

  /** A run that keeps FIFO, fresh acknowledgements and own-term commits, and has two leaders of term 2. */
  lemma {:induction false} FreshVotesAreNeeded() returns (r: Run, k: nat)
    ensures IsRun(3, r) && FifoRun(3, r) && FreshAcks(3, r) && OwnTermCommits(3, r) && !FreshVotes(3, r)
    ensures LeadsAt(r, k, 0, 2) && LeadsAt(r, k, 2, 2)
  {
    r := Play7();
    k := |r.steps|;
    if FreshVotes(3, r) {
      ElectionSafety(3, r, k, k, 0, 2, 2);
    }
  }
}
