/**
  How the scripts begin: node 0 stands for election in term 1, node 2 votes for it, and node 0 leads and takes a
  client's entry. Node 1 has not heard of it yet.
 */
module Openings {
  import opened Types
  import opened Clusters
  import opened Scripts

  const ENTRY_A := Entry(0, 1, "a", 9)

  const P0 := Packet(0, 0, 1, RequestVote(1, 0, -1, -1))
  const P1 := Packet(1, 0, 2, RequestVote(1, 0, -1, -1))
  const P2 := Packet(2, 2, 0, RequestVoteResponse(1, true))
  const P3 := Packet(3, 0, 1, AppendEntries(1, 0, -1, 0, -1, []))
  const P4 := Packet(4, 0, 2, AppendEntries(1, 0, -1, 0, -1, []))

  const START := Bare(Follower, 0, None, [], [-1, -1, -1], [0, 0, 0])
  const STANDING := Bare(Candidate, 1, Some(0), [], [-1, -1, -1], [0, 0, 0])
  const VOTER := Bare(Follower, 1, Some(0), [], [-1, -1, -1], [0, 0, 0])
  const LEADING := Bare(Leader, 1, Some(0), [], [-1, -1, -1], [0, 0, 0])
  const HOLDING := Bare(Leader, 1, Some(0), [ENTRY_A], [-1, -1, -1], [0, 0, 0])

  const C0 := Cluster([START, START, START], {}, 0)
  const C1 := Cluster([STANDING, START, START], {P0, P1}, 2)
  const C2 := Cluster([STANDING, START, VOTER], {P0, P2}, 3)
  const C3 := Cluster([LEADING, START, VOTER], {P0, P3, P4}, 5)
  const C4 := Cluster([HOLDING, START, VOTER], {P0, P3, P4}, 5)

  lemma {:induction false} Voted(h: Kept) returns (r: Run)
    ensures Reaches(h, r, C2)
  {
    Constants();
    hide Reaches, Takes, Expires;
    r := Opens(h, C0);
    r := ExpireTwo(h, r, C0, 0, START, STANDING, P0, P1, C1) by {
      Stands(0, START, STANDING, P0, P1);
    }
    r := DeliverOne(h, r, C1, P1, START, VOTER, P2, C2) by {
      Votes(2, START, P1, VOTER, P2);
    }
  }

  lemma {:induction false} Elected(h: Kept) returns (r: Run)
    ensures Reaches(h, r, C4)
  {
    hide Reaches, Takes, Expires;
    r := Voted(h);
    r := DeliverTwo(h, r, C2, P2, STANDING, LEADING, P3, P4, C3) by {
      Wins(0, STANDING, P2, LEADING, P3, P4);
    }
    r := Commands(h, r, C3, 0, LEADING, HOLDING, ENTRY_A, C4);
  }
}
