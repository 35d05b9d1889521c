/**
  Own-term commits are needed: the run of Figure 8 of the Raft paper, on three nodes. Node 0 leads terms 1 and 3,
  node 2 leads terms 2 and 4. In term 3 a majority holds node 0's entry of term 1 and node 0 commits it; node 2
  then wins term 4 with its entry of term 2, overwrites the other on node 1 and commits its own at the same index.
 */
module Figure8 {
  import opened Types
  import opened Clusters
  import opened Safety
  import opened Scripts
  import opened Openings

  const KEPT := EVERY.(ownTerm := false)

  const ENTRY_B := Entry(0, 2, "b", 9)

  const P5 := Packet(5, 2, 0, RequestVote(2, 2, -1, -1))
  const P6 := Packet(6, 2, 1, RequestVote(2, 2, -1, -1))
  const P7 := Packet(7, 1, 2, RequestVoteResponse(2, true))
  const P8 := Packet(8, 2, 0, AppendEntries(2, 2, -1, 0, -1, []))
  const P9 := Packet(9, 2, 1, AppendEntries(2, 2, -1, 0, -1, []))
  const P10 := Packet(10, 1, 0, RequestVoteResponse(2, false))
  const P11 := Packet(11, 1, 0, AppendEntriesResponse(2, false, 0))
  const P12 := Packet(12, 0, 1, RequestVote(3, 0, 0, 1))
  const P13 := Packet(13, 0, 2, RequestVote(3, 0, 0, 1))
  const P14 := Packet(14, 1, 0, RequestVoteResponse(3, true))
  const P15 := Packet(15, 0, 1, AppendEntries(3, 0, 0, 1, -1, []))
  const P16 := Packet(16, 0, 2, AppendEntries(3, 0, 0, 1, -1, []))
  const P17 := Packet(17, 1, 0, AppendEntriesResponse(3, false, 0))
  const P18 := Packet(18, 0, 1, AppendEntries(3, 0, -1, 0, -1, [ENTRY_A]))
  const P19 := Packet(19, 1, 0, AppendEntriesResponse(3, true, 1))
  const P20 := Packet(20, 1, 2, AppendEntriesResponse(3, false, 1))
  const P21 := Packet(21, 2, 0, RequestVote(4, 2, 0, 2))
  const P22 := Packet(22, 2, 1, RequestVote(4, 2, 0, 2))
  const P23 := Packet(23, 1, 2, RequestVoteResponse(4, true))
  const P24 := Packet(24, 2, 0, AppendEntries(4, 2, 0, 2, -1, []))
  const P25 := Packet(25, 2, 1, AppendEntries(4, 2, 0, 2, -1, []))
  const P26 := Packet(26, 1, 2, AppendEntriesResponse(4, false, 1))
  const P27 := Packet(27, 2, 1, AppendEntries(4, 2, -1, 0, -1, [ENTRY_B]))
  const P28 := Packet(28, 1, 2, AppendEntriesResponse(4, true, 1))

  const N1 := Bare(Candidate, 2, Some(2), [], [-1, -1, -1], [0, 0, 0])
  const N2 := Bare(Follower, 2, Some(2), [], [-1, -1, -1], [0, 0, 0])
  const N3 := Bare(Leader, 2, Some(2), [], [-1, -1, -1], [0, 0, 0])
  const N4 := Bare(Leader, 2, Some(2), [ENTRY_B], [-1, -1, -1], [0, 0, 0])
  const N5 := Bare(Follower, 2, None, [ENTRY_A], [-1, -1, -1], [0, 0, 0]).(queue := [P10])
  const N6 := Bare(Follower, 2, None, [ENTRY_A], [-1, -1, -1], [0, 0, 0])
  const N7 := Bare(Candidate, 3, Some(0), [ENTRY_A], [-1, -1, -1], [0, 0, 0])
  const N8 := Bare(Follower, 3, Some(0), [], [-1, -1, -1], [0, 0, 0])
  const N9 := Bare(Leader, 3, Some(0), [ENTRY_A], [-1, -1, -1], [1, 1, 1])
  const N10 := Bare(Leader, 3, Some(0), [ENTRY_A], [-1, -1, -1], [1, 0, 1])
  const N11 := Bare(Follower, 3, Some(0), [ENTRY_A], [-1, -1, -1], [0, 0, 0])
  const N12 := Bare(Leader, 3, Some(0), [ENTRY_A], [-1, 0, -1], [1, 1, 1])
              .(commitIndex := 0, saved := [ENTRY_A], replied := [9])
  const N13 := Bare(Follower, 3, None, [ENTRY_B], [-1, -1, -1], [0, 0, 0]).(queue := [P20])
  const N14 := Bare(Follower, 3, None, [ENTRY_B], [-1, -1, -1], [0, 0, 0])
  const N15 := Bare(Candidate, 4, Some(2), [ENTRY_B], [-1, -1, -1], [0, 0, 0])
  const N16 := Bare(Follower, 4, Some(2), [ENTRY_A], [-1, -1, -1], [0, 0, 0])
  const N17 := Bare(Leader, 4, Some(2), [ENTRY_B], [-1, -1, -1], [1, 1, 1])
  const N18 := Bare(Leader, 4, Some(2), [ENTRY_B], [-1, -1, -1], [1, 0, 1])
  const N19 := Bare(Follower, 4, Some(2), [ENTRY_B], [-1, -1, -1], [0, 0, 0])
  const N20 := Bare(Leader, 4, Some(2), [ENTRY_B], [-1, 0, -1], [1, 1, 1])
              .(commitIndex := 0, saved := [ENTRY_B], replied := [9])

  const C5 := Cluster([HOLDING, START, N1], {P0, P3, P4, P5, P6}, 7)
  const C6 := Cluster([HOLDING, N2, N1], {P0, P3, P4, P5, P7}, 8)
  const C7 := Cluster([HOLDING, N2, N3], {P0, P3, P4, P5, P8, P9}, 10)
  const C8 := Cluster([HOLDING, N2, N4], {P0, P3, P4, P5, P8, P9}, 10)
  const C9 := Cluster([HOLDING, N2, N4], {P3, P4, P5, P8, P9, P10}, 11)
  const C10 := Cluster([N5, N2, N4], {P3, P4, P5, P8, P9}, 11)
  const C11 := Cluster([N6, N2, N4], {P3, P4, P5, P8, P9}, 11)
  const C12 := Cluster([N6, N2, N4], {P4, P5, P8, P9, P11}, 12)
  const C13 := Cluster([N6, N2, N4], {P4, P5, P8, P9}, 12)
  const C14 := Cluster([N7, N2, N4], {P4, P5, P8, P9, P12, P13}, 14)
  const C15 := Cluster([N7, N8, N4], {P4, P5, P8, P9, P13, P14}, 15)
  const C16 := Cluster([N9, N8, N4], {P4, P5, P8, P9, P13, P15, P16}, 17)
  const C17 := Cluster([N9, N8, N4], {P4, P5, P8, P9, P13, P16, P17}, 18)
  const C18 := Cluster([N10, N8, N4], {P4, P5, P8, P9, P13, P16, P18}, 19)
  const C19 := Cluster([N10, N11, N4], {P4, P5, P8, P9, P13, P16, P19}, 20)
  const C20 := Cluster([N12, N11, N4], {P4, P5, P8, P9, P13, P16}, 20)
  const C21 := Cluster([N12, N11, N4], {P4, P5, P8, P13, P16, P20}, 21)
  const C22 := Cluster([N12, N11, N13], {P4, P5, P8, P13, P16}, 21)
  const C23 := Cluster([N12, N11, N14], {P4, P5, P8, P13, P16}, 21)
  const C24 := Cluster([N12, N11, N15], {P4, P5, P8, P13, P16, P21, P22}, 23)
  const C25 := Cluster([N12, N16, N15], {P4, P5, P8, P13, P16, P21, P23}, 24)
  const C26 := Cluster([N12, N16, N17], {P4, P5, P8, P13, P16, P21, P24, P25}, 26)
  const C27 := Cluster([N12, N16, N17], {P4, P5, P8, P13, P16, P21, P24, P26}, 27)
  const C28 := Cluster([N12, N16, N18], {P4, P5, P8, P13, P16, P21, P24, P27}, 28)
  const C29 := Cluster([N12, N19, N18], {P4, P5, P8, P13, P16, P21, P24, P28}, 29)
  const C30 := Cluster([N12, N19, N20], {P4, P5, P8, P13, P16, P21, P24}, 29)

  lemma {:induction false} Play7() returns (r: Run)
    ensures Reaches(KEPT, r, C7)
  {
    hide Reaches, Takes, Expires;
    r := Elected(KEPT);
    r := ExpireTwo(KEPT, r, C4, 2, VOTER, N1, P5, P6, C5) by {
      Stands(2, VOTER, N1, P5, P6);
    }
    r := DeliverOne(KEPT, r, C5, P6, START, N2, P7, C6) by {
      Votes(1, START, P6, N2, P7);
    }
    r := DeliverTwo(KEPT, r, C6, P7, N1, N3, P8, P9, C7) by {
      Wins(2, N1, P7, N3, P8, P9);
    }
  }

  lemma {:induction false} Play10() returns (r: Run)
    ensures Reaches(KEPT, r, C10)
  {
    hide Reaches, Takes, Expires;
    r := Play7();
    r := Commands(KEPT, r, C7, 2, N3, N4, ENTRY_B, C8);
    r := DeliverOne(KEPT, r, C8, P0, N2, N2, P10, C9) by {
      Votes(1, N2, P0, N2, P10);
    }
    r := DeliverNone(KEPT, r, C9, P10, HOLDING, N5, C10) by {
      StepsAside(0, HOLDING, P10, N5);
    }
  }

  lemma {:induction false} Play13() returns (r: Run)
    ensures Reaches(KEPT, r, C13)
  {
    hide Reaches, Takes, Expires;
    r := Play10();
    r := ResumeNone(KEPT, r, C10, 0, P10, N6, N6, C11) by {
      Passes(0, N6, P10, N6);
    }
    r := DeliverOne(KEPT, r, C11, P3, N2, N2, P11, C12) by {
      Refuses(1, N2, P3, N2, P11);
    }
    r := DeliverNone(KEPT, r, C12, P11, N6, N6, C13) by {
      Passes(0, N6, P11, N6);
    }
  }

  lemma {:induction false} Play16() returns (r: Run)
    ensures Reaches(KEPT, r, C16)
  {
    hide Reaches, Takes, Expires;
    r := Play13();
    r := ExpireTwo(KEPT, r, C13, 0, N6, N7, P12, P13, C14) by {
      Stands(0, N6, N7, P12, P13);
    }
    r := DeliverOne(KEPT, r, C14, P12, N2, N8, P14, C15) by {
      Votes(1, N2, P12, N8, P14);
    }
    r := DeliverTwo(KEPT, r, C15, P14, N7, N9, P15, P16, C16) by {
      Wins(0, N7, P14, N9, P15, P16);
    }
  }

  lemma {:induction false} Play18() returns (r: Run)
    ensures Reaches(KEPT, r, C18)
  {
    hide Reaches, Takes, Expires;
    r := Play16();
    r := DeliverOne(KEPT, r, C16, P15, N8, N8, P17, C17) by {
      Refuses(1, N8, P15, N8, P17);
    }
    r := DeliverOne(KEPT, r, C17, P17, N9, N10, P18, C18) by {
      StepsBack(0, N9, P17, N10, P18);
    }
  }

  lemma {:induction false} Play20() returns (r: Run)
    ensures Reaches(KEPT, r, C20)
  {
    hide Reaches, Takes, Expires;
    r := Play18();
    r := DeliverOne(KEPT, r, C18, P18, N8, N11, P19, C19) by {
      Stores(1, N8, P18, N11, P19);
    }
    r := DeliverNone(KEPT, r, C19, P19, N10, N12, C20) by {
      Hears(0, N10, P19, N12);
    }
  }

  lemma {:induction false} Play23() returns (r: Run)
    ensures Reaches(KEPT, r, C23)
  {
    hide Reaches, Takes, Expires;
    r := Play20();
    r := DeliverOne(KEPT, r, C20, P9, N11, N11, P20, C21) by {
      Refuses(1, N11, P9, N11, P20);
    }
    r := DeliverNone(KEPT, r, C21, P20, N4, N13, C22) by {
      StepsAside(2, N4, P20, N13);
    }
    r := ResumeNone(KEPT, r, C22, 2, P20, N14, N14, C23) by {
      Passes(2, N14, P20, N14);
    }
  }

  lemma {:induction false} Play25() returns (r: Run)
    ensures Reaches(KEPT, r, C25)
  {
    hide Reaches, Takes, Expires;
    r := Play23();
    r := ExpireTwo(KEPT, r, C23, 2, N14, N15, P21, P22, C24) by {
      Stands(2, N14, N15, P21, P22);
    }
    r := DeliverOne(KEPT, r, C24, P22, N11, N16, P23, C25) by {
      Votes(1, N11, P22, N16, P23);
    }
  }

  lemma {:induction false} Play28() returns (r: Run)
    ensures Reaches(KEPT, r, C28)
  {
    hide Reaches, Takes, Expires;
    r := Play25();
    r := DeliverTwo(KEPT, r, C25, P23, N15, N17, P24, P25, C26) by {
      Wins(2, N15, P23, N17, P24, P25);
    }
    r := DeliverOne(KEPT, r, C26, P25, N16, N16, P26, C27) by {
      Refuses(1, N16, P25, N16, P26);
    }
    r := DeliverOne(KEPT, r, C27, P26, N17, N18, P27, C28) by {
      StepsBack(2, N17, P26, N18, P27);
    }
  }

  lemma {:induction false} Play30() returns (r: Run)
    ensures Reaches(KEPT, r, C30)
  {
    hide Reaches, Takes, Expires;
    r := Play28();
    r := DeliverOne(KEPT, r, C28, P27, N16, N19, P28, C29) by {
      Stores(1, N16, P27, N19, P28);
    }
    r := DeliverNone(KEPT, r, C29, P28, N18, N20, C30) by {
      Hears(2, N18, P28, N20);
    }
  }

  /**
    FIFO channels, fresh votes and fresh acknowledgements do not give State Machine Safety: two nodes save
    different entries at one index. The only hypothesis that the run breaks is that of own-term commits.
   */
  lemma {:induction false} OwnTermCommitsAreNeeded() returns (r: Run, k: nat)
    ensures Orderly(3, r) && !OwnTermCommits(3, r)
    ensures k < |r.states| && |r.states[k].nodes| == 3
    ensures ENTRY_A in NodeAt(r, k, 0).saved && ENTRY_B in NodeAt(r, k, 2).saved
    ensures ENTRY_A.index == ENTRY_B.index && ENTRY_A != ENTRY_B
  {
    r := Play30();
    k := |r.steps|;
    if OwnTermCommits(3, r) {
      StateMachineSafety(3, r, k, k, 0, 2, ENTRY_A, ENTRY_B);
    }
  }
}
