/**
  A follower's commitIndex can fall when a new leader takes over, and entries are then saved a second time, with
  every hypothesis kept. Node 0 commits entry a in term 1 and tells node 1; node 2 has a but has not been told.
  Node 2 wins term 2, and its first append takes node 1 back. It then commits a and b, and node 1 saves a again.
 */
module CommitFalls {
  import opened Types
  import opened Clusters
  import opened Safety
  import opened Scripts
  import opened Openings

  const ENTRY_B := Entry(1, 2, "b", 9)

  const P5 := Packet(5, 1, 0, RequestVoteResponse(1, true))
  const P6 := Packet(6, 0, 1, AppendEntries(1, 0, -1, 0, -1, [ENTRY_A]))
  const P7 := Packet(7, 0, 2, AppendEntries(1, 0, -1, 0, -1, [ENTRY_A]))
  const P8 := Packet(8, 1, 0, AppendEntriesResponse(1, true, 1))
  const P9 := Packet(9, 0, 1, AppendEntries(1, 0, 0, 1, 0, []))
  const P10 := Packet(10, 0, 2, AppendEntries(1, 0, -1, 0, 0, [ENTRY_A]))
  const P11 := Packet(11, 2, 0, AppendEntriesResponse(1, true, 1))
  const P12 := Packet(12, 2, 0, RequestVote(2, 2, 0, 1))
  const P13 := Packet(13, 2, 1, RequestVote(2, 2, 0, 1))
  const P14 := Packet(14, 1, 2, RequestVoteResponse(2, true))
  const P15 := Packet(15, 2, 0, AppendEntries(2, 2, 0, 1, -1, []))
  const P16 := Packet(16, 2, 1, AppendEntries(2, 2, 0, 1, -1, []))
  const P17 := Packet(17, 2, 0, AppendEntries(2, 2, 0, 1, -1, [ENTRY_B]))
  const P18 := Packet(18, 2, 1, AppendEntries(2, 2, 0, 1, -1, [ENTRY_B]))
  const P19 := Packet(19, 1, 2, AppendEntriesResponse(2, true, 2))
  const P20 := Packet(20, 2, 0, AppendEntries(2, 2, 0, 1, 1, [ENTRY_B]))
  const P21 := Packet(21, 2, 1, AppendEntries(2, 2, 1, 2, 1, []))

  const N1 := Bare(Follower, 1, Some(0), [ENTRY_A], [-1, -1, -1], [0, 0, 0])
  const N2 := Bare(Leader, 1, Some(0), [ENTRY_A], [-1, 0, -1], [0, 1, 0])
              .(commitIndex := 0, saved := [ENTRY_A], replied := [9])
  const N3 := Bare(Follower, 1, Some(0), [ENTRY_A], [-1, -1, -1], [0, 0, 0]).(commitIndex := 0, saved := [ENTRY_A])
  const N4 := Bare(Candidate, 2, Some(2), [ENTRY_A], [-1, -1, -1], [0, 0, 0])
  const N5 := Bare(Follower, 2, Some(2), [ENTRY_A], [-1, -1, -1], [0, 0, 0]).(commitIndex := 0, saved := [ENTRY_A])
  const N6 := Bare(Leader, 2, Some(2), [ENTRY_A], [-1, -1, -1], [1, 1, 1])
  const N7 := Bare(Follower, 2, Some(2), [ENTRY_A], [-1, -1, -1], [0, 0, 0]).(saved := [ENTRY_A])
  const N8 := Bare(Leader, 2, Some(2), [ENTRY_A, ENTRY_B], [-1, -1, -1], [1, 1, 1])
  const N9 := Bare(Follower, 2, Some(2), [ENTRY_A, ENTRY_B], [-1, -1, -1], [0, 0, 0]).(saved := [ENTRY_A])
  const N10 := Bare(Leader, 2, Some(2), [ENTRY_A, ENTRY_B], [-1, 1, -1], [1, 2, 1])
              .(commitIndex := 1, saved := [ENTRY_A, ENTRY_B], replied := [9, 9])
  const N11 := Bare(Follower, 2, Some(2), [ENTRY_A, ENTRY_B], [-1, -1, -1], [0, 0, 0])
              .(commitIndex := 1, saved := [ENTRY_A, ENTRY_A, ENTRY_B])

  const C5 := Cluster([HOLDING, VOTER, VOTER], {P3, P4, P5}, 6)
  const C6 := Cluster([HOLDING, VOTER, VOTER], {P3, P4, P5, P6, P7}, 8)
  const C7 := Cluster([HOLDING, VOTER, VOTER], {P4, P5, P6, P7}, 8)
  const C8 := Cluster([HOLDING, N1, VOTER], {P4, P5, P7, P8}, 9)
  const C9 := Cluster([HOLDING, N1, VOTER], {P4, P7, P8}, 9)
  const C10 := Cluster([N2, N1, VOTER], {P4, P7}, 9)
  const C11 := Cluster([N2, N1, VOTER], {P4, P7, P9, P10}, 11)
  const C12 := Cluster([N2, N3, VOTER], {P4, P7, P10}, 11)
  const C13 := Cluster([N2, N3, VOTER], {P7, P10}, 11)
  const C14 := Cluster([N2, N3, N1], {P10, P11}, 12)
  const C15 := Cluster([N2, N3, N4], {P10, P11, P12, P13}, 14)
  const C16 := Cluster([N2, N5, N4], {P10, P11, P12, P14}, 15)
  const C17 := Cluster([N2, N5, N6], {P10, P11, P12, P15, P16}, 17)
  const C18 := Cluster([N2, N7, N6], {P10, P11, P12, P15}, 17)
  const C19 := Cluster([N2, N7, N8], {P10, P11, P12, P15}, 17)
  const C20 := Cluster([N2, N7, N8], {P10, P11, P12, P15, P17, P18}, 19)
  const C21 := Cluster([N2, N9, N8], {P10, P11, P12, P15, P17, P19}, 20)
  const C22 := Cluster([N2, N9, N10], {P10, P11, P12, P15, P17}, 20)
  const C23 := Cluster([N2, N9, N10], {P10, P11, P12, P15, P17, P20, P21}, 22)
  const C24 := Cluster([N2, N11, N10], {P10, P11, P12, P15, P17, P20}, 22)

  lemma {:induction false} Play6() returns (r: Run)
    ensures Reaches(EVERY, r, C6)
  {
    hide Reaches, Takes, Expires;
    r := Elected(EVERY);
    r := DeliverOne(EVERY, r, C4, P0, START, VOTER, P5, C5) by {
      Votes(1, START, P0, VOTER, P5);
    }
    r := ExpireTwo(EVERY, r, C5, 0, HOLDING, HOLDING, P6, P7, C6) by {
      Beats(0, HOLDING, P6, P7);
    }
  }

  lemma {:induction false} Play8() returns (r: Run)
    ensures Reaches(EVERY, r, C8)
  {
    hide Reaches, Takes, Expires;
    r := Play6();
    r := DeliverNone(EVERY, r, C6, P3, VOTER, VOTER, C7) by {
      Follows(1, VOTER, P3, VOTER);
    }
    r := DeliverOne(EVERY, r, C7, P6, VOTER, N1, P8, C8) by {
      Stores(1, VOTER, P6, N1, P8);
    }
  }

  lemma {:induction false} Play10() returns (r: Run)
    ensures Reaches(EVERY, r, C10)
  {
    hide Reaches, Takes, Expires;
    r := Play8();
    r := DeliverNone(EVERY, r, C8, P5, HOLDING, HOLDING, C9) by {
      Ignores(0, HOLDING, P5);
    }
    r := DeliverNone(EVERY, r, C9, P8, HOLDING, N2, C10) by {
      Hears(0, HOLDING, P8, N2);
    }
  }

  lemma {:induction false} Play12() returns (r: Run)
    ensures Reaches(EVERY, r, C12)
  {
    hide Reaches, Takes, Expires;
    r := Play10();
    r := ExpireTwo(EVERY, r, C10, 0, N2, N2, P9, P10, C11) by {
      Beats(0, N2, P9, P10);
    }
    r := DeliverNone(EVERY, r, C11, P9, N1, N3, C12) by {
      Follows(1, N1, P9, N3);
    }
  }

  lemma {:induction false} Play14() returns (r: Run)
    ensures Reaches(EVERY, r, C14)
  {
    hide Reaches, Takes, Expires;
    r := Play12();
    r := DeliverNone(EVERY, r, C12, P4, VOTER, VOTER, C13) by {
      Follows(2, VOTER, P4, VOTER);
    }
    r := DeliverOne(EVERY, r, C13, P7, VOTER, N1, P11, C14) by {
      Stores(2, VOTER, P7, N1, P11);
    }
  }

  lemma {:induction false} Play17() returns (r: Run)
    ensures Reaches(EVERY, r, C17)
  {
    hide Reaches, Takes, Expires;
    r := Play14();
    r := ExpireTwo(EVERY, r, C14, 2, N1, N4, P12, P13, C15) by {
      Stands(2, N1, N4, P12, P13);
    }
    r := DeliverOne(EVERY, r, C15, P13, N3, N5, P14, C16) by {
      Votes(1, N3, P13, N5, P14);
    }
    r := DeliverTwo(EVERY, r, C16, P14, N4, N6, P15, P16, C17) by {
      Wins(2, N4, P14, N6, P15, P16);
    }
  }

  lemma {:induction false} Play18() returns (r: Run, k: nat)
    ensures Reaches(EVERY, r, C18) && |r.steps| == k + 1 && |r.states| == k + 2
    ensures r.states[k] == C17 && r.states[k + 1] == C18
  {
    hide Reaches, Takes, Expires;
    r := Play17();
    k := |r.steps|;
    EndsIn(EVERY, r, C17);
    r := DeliverNone(EVERY, r, C17, P16, N5, N7, C18) by {
      Follows(1, N5, P16, N7);
    }
  }

  /** In step k the commitIndex of node 1 falls from 0 to -1. */
  lemma {:induction false} CommitIndexFalls() returns (r: Run, k: nat)
    ensures OrderlyCommits(3, r) && k < |r.steps| && |r.states[k].nodes| == 3 == |r.states[k + 1].nodes|
    ensures NodeAt(r, k, 1).commitIndex == 0 && NodeAt(r, k + 1, 1).commitIndex == -1
  {
    r, k := Play18();
  }

  lemma {:induction false} Play20() returns (r: Run)
    ensures Reaches(EVERY, r, C20)
  {
    hide Reaches, Takes, Expires;
    var k;
    r, k := Play18();
    r := Commands(EVERY, r, C18, 2, N6, N8, ENTRY_B, C19);
    r := ExpireTwo(EVERY, r, C19, 2, N8, N8, P17, P18, C20) by {
      Beats(2, N8, P17, P18);
    }
  }

  lemma {:induction false} Play21() returns (r: Run)
    ensures Reaches(EVERY, r, C21)
  {
    hide Reaches, Takes, Expires;
    r := Play20();
    r := DeliverOne(EVERY, r, C20, P18, N7, N9, P19, C21) by {
      Stores(1, N7, P18, N9, P19);
    }
  }

  lemma {:induction false} Play22() returns (r: Run)
    ensures Reaches(EVERY, r, C22)
  {
    hide Reaches, Takes, Expires;
    r := Play21();
    r := DeliverNone(EVERY, r, C21, P19, N8, N10, C22) by {
      Hears(2, N8, P19, N10);
    }
  }

  lemma {:induction false} Play24() returns (r: Run)
    ensures Reaches(EVERY, r, C24)
  {
    hide Reaches, Takes, Expires;
    r := Play22();
    r := ExpireTwo(EVERY, r, C22, 2, N10, N10, P20, P21, C23) by {
      Beats(2, N10, P20, P21);
    }
    r := DeliverNone(EVERY, r, C23, P21, N9, N11, C24) by {
      Follows(1, N9, P21, N11);
    }
  }

  /** The same run, continued until node 1 has saved a twice. */
  lemma {:induction false} SavedTwice() returns (r: Run, k: nat)
    ensures OrderlyCommits(3, r) && k < |r.states| && |r.states[k].nodes| == 3
    ensures NodeAt(r, k, 1).saved == [ENTRY_A, ENTRY_A, ENTRY_B]
  {
    r := Play24();
    k := |r.steps|;
  }
}
