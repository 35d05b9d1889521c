/**
  FIFO channels are needed: a leader sends its log of one entry and then its log of two, and the follower meets
  them in the other order. It acknowledges two entries and then drops the second.
 */
module Reordered {
  import opened Types
  import opened Clusters
  import opened Scripts
  import opened Openings
  import opened Truncation

  const KEPT := EVERY.(fifo := false)

  const ENTRY_B := Entry(1, 1, "b", 9)

  const P5 := Packet(5, 0, 1, AppendEntries(1, 0, -1, 0, -1, [ENTRY_A]))
  const P6 := Packet(6, 0, 2, AppendEntries(1, 0, -1, 0, -1, [ENTRY_A]))
  const P7 := Packet(7, 0, 1, AppendEntries(1, 0, -1, 0, -1, [ENTRY_A, ENTRY_B]))
  const P8 := Packet(8, 0, 2, AppendEntries(1, 0, -1, 0, -1, [ENTRY_A, ENTRY_B]))
  const P9 := Packet(9, 1, 0, AppendEntriesResponse(1, true, 2))
  const P10 := Packet(10, 1, 0, AppendEntriesResponse(1, true, 1))

  const N1 := Bare(Leader, 1, Some(0), [ENTRY_A, ENTRY_B], [-1, -1, -1], [0, 0, 0])
  const N2 := Bare(Follower, 1, None, [ENTRY_A, ENTRY_B], [-1, -1, -1], [0, 0, 0])
  const N3 := Bare(Follower, 1, None, [ENTRY_A], [-1, -1, -1], [0, 0, 0])

  const C5 := Cluster([HOLDING, START, VOTER], {P0, P3, P4, P5, P6}, 7)
  const C6 := Cluster([N1, START, VOTER], {P0, P3, P4, P5, P6}, 7)
  const C7 := Cluster([N1, START, VOTER], {P0, P3, P4, P5, P6, P7, P8}, 9)
  const C8 := Cluster([N1, N2, VOTER], {P0, P3, P4, P5, P6, P8, P9}, 10)
  const C9 := Cluster([N1, N3, VOTER], {P0, P3, P4, P6, P8, P9, P10}, 11)

  lemma {:induction false} Play7() returns (r: Run)
    ensures Reaches(KEPT, r, C7)
  {
    hide Reaches, Takes, Expires;
    r := Elected(KEPT);
    r := ExpireTwo(KEPT, r, C4, 0, HOLDING, HOLDING, P5, P6, C5) by {
      Beats(0, HOLDING, P5, P6);
    }
    r := Commands(KEPT, r, C5, 0, HOLDING, N1, ENTRY_B, C6);
    r := ExpireTwo(KEPT, r, C6, 0, N1, N1, P7, P8, C7) by {
      Beats(0, N1, P7, P8);
    }
  }

  lemma {:induction false} Play9() returns (r: Run, j: nat)
    ensures Reaches(KEPT, r, C9) && |r.steps| == j + 2 && |r.states| == j + 3
    ensures r.steps[j] == Deliver(P7) && r.states[j] == C7 && r.states[j + 1] == C8
  {
    hide Reaches, Takes, Expires;
    r := Play7();
    j := |r.steps|;
    EndsIn(KEPT, r, C7);
    r := DeliverOne(KEPT, r, C7, P7, START, N2, P9, C8) by {
      Stores(1, START, P7, N2, P9);
    }
    r := DeliverOne(KEPT, r, C8, P5, N2, N3, P10, C9) by {
      Stores(1, N2, P5, N3, P10);
    }
  }

  /** A run that keeps every hypothesis but FIFO, and a follower loses an entry that it has acknowledged. */
  lemma {:induction false} FifoIsNeeded() returns (r: Run, j: nat, k: nat)
    ensures IsRun(3, r) && FreshVotes(3, r) && FreshAcks(3, r) && OwnTermCommits(3, r) && !FifoRun(3, r)
    ensures AcceptsAt(3, r, j, 1, P7) && P9.msg == AppendEntriesResponse(1, true, 2)
    ensures j < k < |r.states| && |r.states[k].nodes| == 3 && NodeAt(r, k, 1).term == P7.msg.term
    ensures P9 in r.states[k].net
    ensures !(NodeAt(r, j + 1, 1).log <= NodeAt(r, k, 1).log)
  {
    r, j := Play9();
    k := j + 2;
    assert StepsTo(3, r, j);
    if FifoRun(3, r) {
      TruncationHarmless(3, r, j, k, 1, P7);
    }
  }
}
