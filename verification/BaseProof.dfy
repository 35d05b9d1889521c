/** The base invariant survives whatever one node does. Only the history and that node appear here. */
module BaseProof {
  import opened Types
  import opened NodeSpec
  import opened History

  // ---------------------------------------------------------------- records stay good as the history grows

  lemma {:induction false} PrefixTrans<T>(a: seq<T>, b: seq<T>, c: seq<T>)
    requires a <= b <= c
    ensures a <= c
  {
  }

  lemma {:induction false} CoveredExtends(h: History, h': History, log: seq<Entry>)
    requires Covered(h, log) && Extends(h, h')
    ensures Covered(h', log)
  {
    forall k | 0 <= k < |log| ensures CoveredAt(h', log, k) {
      assert CoveredAt(h, log, k);
      PrefixTrans(log[..k + 1], h.lead[log[k].term].log, h'.lead[log[k].term].log);
    }
  }

  lemma {:induction false} CoveredPrefix(h: History, a: seq<Entry>, b: seq<Entry>)
    requires Covered(h, b) && a <= b
    ensures Covered(h, a)
  {
    forall k | 0 <= k < |a| ensures CoveredAt(h, a, k) {
      assert CoveredAt(h, b, k);
      assert a[..k + 1] == b[..k + 1];
    }
  }

  lemma {:induction false} LeadExtends(n: int, h: History, h': History, t: int)
    requires t in h.lead && LeadOk(n, h, t) && Extends(h, h') && h'.lead[t] == h.lead[t]
    ensures LeadOk(n, h', t)
  {
    CoveredExtends(h, h', h.lead[t].log);
  }

  lemma {:induction false} RecordsExtend(n: int, h: History, h': History)
    requires HistoryOk(n, h) && Extends(h, h')
    ensures forall key {:trigger BallotOk(h', key)} | key in h.ballots :: BallotOk(h', key)
    ensures forall key {:trigger BidOk(h', key)} | key in h.bids :: BidOk(h', key)
  {
    forall key | key in h.ballots ensures BallotOk(h', key) {
      assert BallotOk(h, key);
      CoveredExtends(h, h', h.ballots[key].log);
    }
    forall key | key in h.bids ensures BidOk(h', key) {
      assert BidOk(h, key);
      CoveredExtends(h, h', h.bids[key]);
    }
  }

  lemma {:induction false} SameSlice<T>(a: seq<T>, b: seq<T>, lo: int, hi: int)
    requires a <= b && 0 <= lo <= hi <= |a|
    ensures a[lo..hi] == b[lo..hi]
  {
  }

  lemma {:induction false} SliceExtends(h: History, h': History, m: Message)
    requires m.AppendEntries? && m.term in h.lead && Extends(h, h')
    ensures m.term in h'.lead && (SliceOk(h, m) ==> SliceOk(h', m))
  {
  }

  lemma {:induction false} MessageExtends(n: int, h: History, h': History, src: int, dst: int, m: Message)
    requires MessageOk(n, h, src, dst, m) && Extends(h, h')
    ensures MessageOk(n, h', src, dst, m)
  {
    if m.AppendEntries? {
      if SliceOk(h, m) {
        SliceExtends(h, h', m);
      }
    }
  }

  lemma {:induction false} NodeExtends(n: int, j: int, s: NodeState, h: History, h': History, i: int)
    requires NodeOk(n, j, s, h) && Grows(h, h', i) && j != i
    ensures NodeOk(n, j, s, h')
  {
    CoveredExtends(h, h', s.log);
    forall p | p in s.queue ensures p.dst == j && MessageOk(n, h', p.src, j, p.msg) {
      MessageExtends(n, h, h', p.src, j, p.msg);
    }
  }

  // ---------------------------------------------------------------- the four ways the history changes

  lemma {:induction false} AddBallot(n: int, h: History, i: int, t: int, cand: int, log: seq<Entry>)
    requires HistoryOk(n, h) && Key(t, i) !in h.ballots && Key(t, cand) in h.bids
    requires UpToDate(h.bids[Key(t, cand)], log) && Covered(h, log) && Numbered(log, t)
    ensures var h' := h.(ballots := h.ballots[Key(t, i) := Ballot(cand, log)]);
            HistoryOk(n, h') && Grows(h, h', i)
  {
    var h' := h.(ballots := h.ballots[Key(t, i) := Ballot(cand, log)]);
    RecordsExtend(n, h, h');
    CoveredExtends(h, h', log);
    assert BallotOk(h', Key(t, i));
    forall u | u in h'.lead ensures LeadOk(n, h', u) {
      LeadExtends(n, h, h', u);
    }
  }

  lemma {:induction false} AddBid(n: int, h: History, i: int, t: int, log: seq<Entry>)
    requires HistoryOk(n, h) && Key(t, i) !in h.ballots && Key(t, i) !in h.bids && t >= 1
    requires Covered(h, log) && Numbered(log, t - 1)
    ensures var h' := h.(bids := h.bids[Key(t, i) := log], ballots := h.ballots[Key(t, i) := Ballot(i, log)]);
            HistoryOk(n, h') && Grows(h, h', i)
  {
    var b := h.(bids := h.bids[Key(t, i) := log]);
    RecordsExtend(n, h, b);
    CoveredExtends(h, b, log);
    assert BidOk(b, Key(t, i));
    forall u | u in b.lead ensures LeadOk(n, b, u) {
      LeadExtends(n, h, b, u);
    }
    AddBallot(n, b, i, t, i, log);
  }

  lemma {:induction false} AddLead(n: int, h: History, i: int, t: int)
    requires HistoryOk(n, h) && t !in h.lead && 0 <= i < n && Key(t, i) in h.bids
    requires IsQuorum(n, Voters(n, h, t, i))
    ensures var log := h.bids[Key(t, i)];
            var h' := h.(lead := h.lead[t := Lead(i, Voters(n, h, t, i), log, log)]);
            HistoryOk(n, h') && Grows(h, h', i)
  {
    var log := h.bids[Key(t, i)];
    var h' := h.(lead := h.lead[t := Lead(i, Voters(n, h, t, i), log, log)]);
    RecordsExtend(n, h, h');
    assert BidOk(h', Key(t, i));
    forall u | u in h'.lead ensures LeadOk(n, h', u) {
      if u != t {
        LeadExtends(n, h, h', u);
      }
    }
  }

  lemma {:induction false} GrowLead(n: int, h: History, t: int, e: Entry)
    requires HistoryOk(n, h) && t in h.lead && e.term == t && e.index == |h.lead[t].log|
    ensures var h' := h.(lead := h.lead[t := h.lead[t].(log := h.lead[t].log + [e])]);
            HistoryOk(n, h') && Grows(h, h', h.lead[t].leader)
            && Covered(h', h'.lead[t].log) && Numbered(h'.lead[t].log, t)
  {
    var old_ := h.lead[t].log;
    var log := old_ + [e];
    var h' := h.(lead := h.lead[t := h.lead[t].(log := log)]);
    assert LeadOk(n, h, t);
    RecordsExtend(n, h, h');
    CoveredExtends(h, h', old_);
    forall k | 0 <= k < |log| ensures CoveredAt(h', log, k) {
      if k < |old_| {
        assert CoveredAt(h', old_, k);
        assert log[..k + 1] == old_[..k + 1];
      } else {
        assert log[..k + 1] == log;
      }
    }
    forall u | u in h'.lead ensures LeadOk(n, h', u) {
      if u != t {
        LeadExtends(n, h, h', u);
      }
    }
  }
}
