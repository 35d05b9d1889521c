/**
  Two rejections of one follower can be under way at once. The second finds nextIndex at 0 and makes the leader
  read before the start of its log: the one exception in the theorem that assertions never fire does occur.
 */
module TwoRejections {
  import opened Types
  import opened NodeSpec
  import opened Clusters
  import opened Safety
  import opened Scripts
  import opened Openings
  import opened Bounds
  import opened Figure8

  const Q17 := Packet(17, 0, 1, AppendEntries(3, 0, 0, 1, -1, []))
  const Q18 := Packet(18, 0, 2, AppendEntries(3, 0, 0, 1, -1, []))
  const Q19 := Packet(19, 1, 0, AppendEntriesResponse(3, false, 0))
  const Q20 := Packet(20, 1, 0, AppendEntriesResponse(3, false, 0))
  const Q21 := Packet(21, 0, 1, AppendEntries(3, 0, -1, 0, -1, [ENTRY_A]))

  const T17 := Cluster([N9, N8, N4], {P4, P5, P8, P9, P13, P15, P16, Q17, Q18}, 19)
  const T18 := Cluster([N9, N8, N4], {P4, P5, P8, P9, P13, P16, Q17, Q18, Q19}, 20)
  const T19 := Cluster([N9, N8, N4], {P4, P5, P8, P9, P13, P16, Q18, Q19, Q20}, 21)
  const T20 := Cluster([N10, N8, N4], {P4, P5, P8, P9, P13, P16, Q18, Q20, Q21}, 22)

  lemma {:induction false} Doubt18() returns (r: Run)
    ensures Reaches(KEPT, r, T18)
  {
    hide Reaches, Takes, Expires;
    r := Play16();
    r := ExpireTwo(KEPT, r, C16, 0, N9, N9, Q17, Q18, T17) by {
      Beats(0, N9, Q17, Q18);
    }
    r := DeliverOne(KEPT, r, T17, P15, N8, N8, Q19, T18) by {
      Refuses(1, N8, P15, N8, Q19);
    }
  }

  lemma {:induction false} Doubt20() returns (r: Run)
    ensures Reaches(KEPT, r, T20)
  {
    hide Reaches, Takes, Expires;
    r := Doubt18();
    r := DeliverOne(KEPT, r, T18, Q17, N8, N8, Q20, T19) by {
      Refuses(1, N8, Q17, N8, Q20);
    }
    r := DeliverOne(KEPT, r, T19, Q19, N9, N10, Q21, T20) by {
      StepsBack(0, N9, Q19, N10, Q21);
    }
  }

  /** An orderly run after which the rejection that is next in line is not defined. */
  lemma {:induction false} RejectionAtZeroHappens() returns (r: Run, k: nat)
    ensures Orderly(3, r) && k < |r.states|
    ensures Deliverable(r.states[k], 0, Q20) && RejectionAtZero(NodeAt(r, k, 0), Q20)
    ensures Shaped(3, 0, NodeAt(r, k, 0)) && !Defined(3, 0, NodeAt(r, k, 0), Q20)
    ensures Fifo(3, r.states[k], Deliver(Q20))
  {
    r := Doubt20();
    k := |r.steps|;
  }
}
