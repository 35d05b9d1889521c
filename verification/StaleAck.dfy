/**
  Fresh acknowledgements are needed: node 1 acknowledges an entry twice in term 1, and its second response reaches
  node 0 when node 0 leads term 3, to which node 1 has not come.
 */
module StaleAck {
  import opened Types
  import opened Clusters
  import opened Safety
  import opened Replication
  import opened NodeFacts
  import opened Scripts
  import opened Openings

  const KEPT := EVERY.(acks := false)

  const P5 := Packet(5, 0, 1, AppendEntries(1, 0, -1, 0, -1, [ENTRY_A]))
  const P6 := Packet(6, 0, 2, AppendEntries(1, 0, -1, 0, -1, [ENTRY_A]))
  const P7 := Packet(7, 0, 1, AppendEntries(1, 0, -1, 0, -1, [ENTRY_A]))
  const P8 := Packet(8, 0, 2, AppendEntries(1, 0, -1, 0, -1, [ENTRY_A]))
  const P9 := Packet(9, 1, 0, RequestVoteResponse(1, true))
  const P10 := Packet(10, 1, 0, AppendEntriesResponse(1, true, 1))
  const P11 := Packet(11, 1, 0, AppendEntriesResponse(1, true, 1))
  const P12 := Packet(12, 2, 0, RequestVote(2, 2, -1, -1))
  const P13 := Packet(13, 2, 1, RequestVote(2, 2, -1, -1))
  const P14 := Packet(14, 0, 2, RequestVoteResponse(2, false))
  const P15 := Packet(15, 0, 1, RequestVote(3, 0, 0, 1))
  const P16 := Packet(16, 0, 2, RequestVote(3, 0, 0, 1))
  const P17 := Packet(17, 2, 0, RequestVoteResponse(3, true))
  const P18 := Packet(18, 0, 1, AppendEntries(3, 0, 0, 1, 0, []))
  const P19 := Packet(19, 0, 2, AppendEntries(3, 0, 0, 1, 0, []))

  const N1 := Bare(Follower, 1, Some(0), [ENTRY_A], [-1, -1, -1], [0, 0, 0])
  const N2 := Bare(Leader, 1, Some(0), [ENTRY_A], [-1, 0, -1], [0, 1, 0])
              .(commitIndex := 0, saved := [ENTRY_A], replied := [9])
  const N3 := Bare(Candidate, 2, Some(2), [], [-1, -1, -1], [0, 0, 0])
  const N4 := Bare(Follower, 2, None, [ENTRY_A], [-1, 0, -1], [0, 1, 0])
              .(queue := [P12], commitIndex := 0, saved := [ENTRY_A], replied := [9])
  const N5 := Bare(Follower, 2, None, [ENTRY_A], [-1, 0, -1], [0, 1, 0])
              .(commitIndex := 0, saved := [ENTRY_A], replied := [9])
  const N6 := Bare(Candidate, 3, Some(0), [ENTRY_A], [-1, 0, -1], [0, 1, 0])
              .(commitIndex := 0, saved := [ENTRY_A], replied := [9])
  const N7 := Bare(Follower, 3, None, [], [-1, -1, -1], [0, 0, 0]).(queue := [P16])
  const N8 := Bare(Follower, 3, Some(0), [], [-1, -1, -1], [0, 0, 0])
  const N9 := Bare(Follower, 3, None, [], [-1, -1, -1], [0, 0, 0])
  const N10 := Bare(Leader, 3, Some(0), [ENTRY_A], [-1, -1, -1], [1, 1, 1])
              .(commitIndex := 0, saved := [ENTRY_A], replied := [9])
  const N11 := Bare(Leader, 3, Some(0), [ENTRY_A], [-1, 0, -1], [1, 1, 1])
              .(commitIndex := 0, saved := [ENTRY_A], replied := [9])

  const C5 := Cluster([HOLDING, START, VOTER], {P0, P3, P4, P5, P6}, 7)
  const C6 := Cluster([HOLDING, START, VOTER], {P0, P3, P4, P5, P6, P7, P8}, 9)
  const C7 := Cluster([HOLDING, VOTER, VOTER], {P3, P4, P5, P6, P7, P8, P9}, 10)
  const C8 := Cluster([HOLDING, VOTER, VOTER], {P4, P5, P6, P7, P8, P9}, 10)
  const C9 := Cluster([HOLDING, N1, VOTER], {P4, P6, P7, P8, P9, P10}, 11)
  const C10 := Cluster([HOLDING, N1, VOTER], {P4, P6, P8, P9, P10, P11}, 12)
  const C11 := Cluster([HOLDING, N1, VOTER], {P4, P6, P8, P10, P11}, 12)
  const C12 := Cluster([N2, N1, VOTER], {P4, P6, P8, P11}, 12)
  const C13 := Cluster([N2, N1, N3], {P4, P6, P8, P11, P12, P13}, 14)
  const C14 := Cluster([N4, N1, N3], {P4, P6, P8, P11, P13}, 14)
  const C15 := Cluster([N5, N1, N3], {P4, P6, P8, P11, P13, P14}, 15)
  const C16 := Cluster([N6, N1, N3], {P4, P6, P8, P11, P13, P14, P15, P16}, 17)
  const C17 := Cluster([N6, N1, N3], {P6, P8, P11, P13, P14, P15, P16}, 17)
  const C18 := Cluster([N6, N1, N3], {P8, P11, P13, P14, P15, P16}, 17)
  const C19 := Cluster([N6, N1, N3], {P11, P13, P14, P15, P16}, 17)
  const C20 := Cluster([N6, N1, N3], {P11, P13, P15, P16}, 17)
  const C21 := Cluster([N6, N1, N7], {P11, P13, P15}, 17)
  const C22 := Cluster([N6, N1, N8], {P11, P13, P15, P17}, 18)
  const C23 := Cluster([N10, N1, N8], {P11, P13, P15, P18, P19}, 20)
  const C24 := Cluster([N11, N1, N8], {P13, P15, P18, P19}, 20)

  lemma {:induction false} Play6() returns (r: Run)
    ensures Reaches(KEPT, r, C6)
  {
    hide Reaches, Takes, Expires;
    r := Elected(KEPT);
    r := ExpireTwo(KEPT, r, C4, 0, HOLDING, HOLDING, P5, P6, C5) by {
      Beats(0, HOLDING, P5, P6);
    }
    r := ExpireTwo(KEPT, r, C5, 0, HOLDING, HOLDING, P7, P8, C6) by {
      Beats(0, HOLDING, P7, P8);
    }
  }

  lemma {:induction false} Play8() returns (r: Run)
    ensures Reaches(KEPT, r, C8)
  {
    hide Reaches, Takes, Expires;
    r := Play6();
    r := DeliverOne(KEPT, r, C6, P0, START, VOTER, P9, C7) by {
      Votes(1, START, P0, VOTER, P9);
    }
    r := DeliverNone(KEPT, r, C7, P3, VOTER, VOTER, C8) by {
      Follows(1, VOTER, P3, VOTER);
    }
  }

  lemma {:induction false} Play10() returns (r: Run)
    ensures Reaches(KEPT, r, C10)
  {
    hide Reaches, Takes, Expires;
    r := Play8();
    r := DeliverOne(KEPT, r, C8, P5, VOTER, N1, P10, C9) by {
      Stores(1, VOTER, P5, N1, P10);
    }
    r := DeliverOne(KEPT, r, C9, P7, N1, N1, P11, C10) by {
      Stores(1, N1, P7, N1, P11);
    }
  }

  lemma {:induction false} Play12() returns (r: Run)
    ensures Reaches(KEPT, r, C12)
  {
    hide Reaches, Takes, Expires;
    r := Play10();
    r := DeliverNone(KEPT, r, C10, P9, HOLDING, HOLDING, C11) by {
      Ignores(0, HOLDING, P9);
    }
    r := DeliverNone(KEPT, r, C11, P10, HOLDING, N2, C12) by {
      Hears(0, HOLDING, P10, N2);
    }
  }

  lemma {:induction false} Play14() returns (r: Run)
    ensures Reaches(KEPT, r, C14)
  {
    hide Reaches, Takes, Expires;
    r := Play12();
    r := ExpireTwo(KEPT, r, C12, 2, VOTER, N3, P12, P13, C13) by {
      Stands(2, VOTER, N3, P12, P13);
    }
    r := DeliverNone(KEPT, r, C13, P12, N2, N4, C14) by {
      StepsAside(0, N2, P12, N4);
    }
  }

  lemma {:induction false} Play16() returns (r: Run)
    ensures Reaches(KEPT, r, C16)
  {
    hide Reaches, Takes, Expires;
    r := Play14();
    r := ResumeOne(KEPT, r, C14, 0, P12, N5, N5, P14, C15) by {
      Votes(0, N5, P12, N5, P14);
    }
    r := ExpireTwo(KEPT, r, C15, 0, N5, N6, P15, P16, C16) by {
      Stands(0, N5, N6, P15, P16);
    }
  }

  lemma {:induction false} Play20() returns (r: Run)
    ensures Reaches(KEPT, r, C20)
  {
    hide Reaches, Takes, Expires;
    r := Play16();
    r := DeliverNone(KEPT, r, C16, P4, N3, N3, C17) by {
      Waits(2, N3, P4);
    }
    r := DeliverNone(KEPT, r, C17, P6, N3, N3, C18) by {
      Waits(2, N3, P6);
    }
    r := DeliverNone(KEPT, r, C18, P8, N3, N3, C19) by {
      Waits(2, N3, P8);
    }
    r := DeliverNone(KEPT, r, C19, P14, N3, N3, C20) by {
      Waits(2, N3, P14);
    }
  }

  lemma {:induction false} Play22() returns (r: Run)
    ensures Reaches(KEPT, r, C22)
  {
    hide Reaches, Takes, Expires;
    r := Play20();
    r := DeliverNone(KEPT, r, C20, P16, N3, N7, C21) by {
      StepsAside(2, N3, P16, N7);
    }
    r := ResumeOne(KEPT, r, C21, 2, P16, N9, N8, P17, C22) by {
      Votes(2, N9, P16, N8, P17);
    }
  }

  lemma {:induction false} Play24() returns (r: Run)
    ensures Reaches(KEPT, r, C24)
  {
    hide Reaches, Takes, Expires;
    r := Play22();
    r := DeliverTwo(KEPT, r, C22, P17, N6, N10, P18, P19, C23) by {
      Wins(0, N6, P17, N10, P18, P19);
    }
    r := DeliverNone(KEPT, r, C23, P11, N10, N11, C24) by {
      Hears(0, N10, P11, N11);
    }
  }

  /** Node 1 has never been in term 3. */
  lemma {:induction false} NeverCame(r: Run, k: nat)
    requires IsRun(3, r) && NodeIn(r, k, 1) && r.states[k].nodes[1].term == 1
    ensures !HadLog(r, k, 1, 3, [ENTRY_A])
  {
    if HadLog(r, k, 1, 3, [ENTRY_A]) {
      var m: nat :| HasLog(r, m, 1, 3, [ENTRY_A]) && m <= k;
      OneVotePerTerm(3, r, m, k, 1);
    }
  }

  /** A run that keeps every hypothesis but fresh acknowledgements, in which matchIndex tells what is not so. */
  lemma {:induction false} FreshAcksAreNeeded() returns (r: Run, k: nat)
    ensures IsRun(3, r) && FreshVotes(3, r) && FifoRun(3, r) && OwnTermCommits(3, r) && !FreshAcks(3, r)
    ensures LeadsAt(r, k, 0, 3) && |r.states[k].nodes| == 3 && |NodeAt(r, k, 0).matchIndex| == 3
    ensures NodeAt(r, k, 0).matchIndex[1] == 0 && NodeAt(r, k, 0).log == [ENTRY_A]
    ensures !HadLog(r, k, 1, 3, NodeAt(r, k, 0).log[..1])
  {
    r := Play24();
    k := |r.steps|;
    NeverCame(r, k);
    assert [ENTRY_A][..1] == [ENTRY_A];
    if FreshAcks(3, r) {
      MatchIndexSound(3, r, k, 0, 1, 3);
    }
  }
}
