/** Leader completeness as a fact about histories: what a majority accepted in a term, later leaders have. */
module Completeness {
  import opened Types
  import opened NodeSpec
  import opened History
  import opened BaseProof
  import opened BaseStep
  import opened Marks

  /** Each node of q has accepted at least k entries of term t's leader. */
  ghost predicate Held(n: int, a: Marks, t: int, k: int, q: set<int>) {
    IsQuorum(n, q) && forall v | v in q :: Length(a, t, v) >= k
  }

  /** A majority holds the first k entries of term t's leader, the last of them from term t itself. */
  ghost predicate Committed(n: int, h: History, a: Marks, t: int, k: int) {
    && t in h.lead
    && 0 < k <= |h.lead[t].log|
    && h.lead[t].log[k - 1].term == t
    && exists q :: Held(n, a, t, k, q)
  }

  lemma {:induction false} SharedPrefix<T>(a: seq<T>, b: seq<T>, l: seq<T>)
    requires a <= l && b <= l && |a| <= |b|
    ensures a <= b
  {
  }

  /** The history records each log whole, under the term of its last entry. */
  lemma {:induction false} LastCovers(n: int, h: History, log: seq<Entry>)
    requires HistoryOk(n, h) && Covered(h, log) && log != []
    ensures LastTerm(log) in h.lead && log <= h.lead[LastTerm(log)].log
    ensures forall k | 0 <= k < |log| :: log[k].term <= LastTerm(log)
  {
    assert CoveredAt(h, log, |log| - 1);
    assert log[..|log|] == log;
    assert LeadOk(n, h, LastTerm(log));
    forall k | 0 <= k < |log| ensures log[k].term <= LastTerm(log) {
      assert log[k] == h.lead[LastTerm(log)].log[k];
    }
  }

  /** A log that ends in an entry of term w is longer than what w's leader was elected with. */
  lemma {:induction false} ReachesPastElected(n: int, h: History, log: seq<Entry>)
    requires HistoryOk(n, h) && Covered(h, log) && log != []
    ensures LastTerm(log) in h.lead && h.lead[LastTerm(log)].elected <= log
  {
    LastCovers(n, h, log);
    var w := LastTerm(log);
    var l := h.lead[w];
    assert LeadOk(n, h, w);
    assert log[|log| - 1] == l.log[|log| - 1];
    assert forall x | 0 <= x < |l.elected| :: l.log[x] == l.elected[x];
    SharedPrefix(l.elected, log, l.log);
  }

  /** A candidate whose log is up to date with one that holds committed entries holds them too. */
  lemma {:induction false} UpToDateKeeps(n: int, h: History, t: int, k: int, e: seq<Entry>, b: seq<Entry>, u: int)
    requires HistoryOk(n, h) && t in h.lead && 0 < k <= |h.lead[t].log| && h.lead[t].log[k - 1].term == t
    requires Covered(h, e) && Numbered(e, u - 1) && Covered(h, b) && UpToDate(e, b)
    requires Head(h, t, k) <= b
    requires forall w | t < w < u && w in h.lead :: Head(h, t, k) <= h.lead[w].elected
    ensures Head(h, t, k) <= e
  {
    LastCovers(n, h, b);
    assert b[k - 1] == Head(h, t, k)[k - 1];
    assert LeadOk(n, h, t);
    assert LastTerm(b) >= t >= 1;
    assert e != [];
    LastCovers(n, h, e);
    var w := LastTerm(e);
    if w == LastTerm(b) {
      SharedPrefix(b, e, h.lead[w].log);
      PrefixTrans(Head(h, t, k), b, e);
    } else {
      ReachesPastElected(n, h, e);
      PrefixTrans(Head(h, t, k), h.lead[w].elected, e);
    }
  }

  /** Some voter of the later leader held the entries, and still held them when it voted. */
  lemma {:induction false} VoterHeld(n: int, h: History, a: Marks, t: int, k: int, u: int) returns (b: seq<Entry>)
    requires n >= 0 && HistoryOk(n, h) && BallotsMarked(h, a)
    requires Committed(n, h, a, t, k) && u in h.lead && t < u
    requires forall w | t < w < u && w in h.lead :: Head(h, t, k) <= h.lead[w].elected
    ensures Covered(h, b) && UpToDate(h.lead[u].elected, b) && Head(h, t, k) <= b
  {
    var q :| Held(n, a, t, k, q);
    assert LeadOk(n, h, u);
    var v := QuorumsMeet(n, q, h.lead[u].quorum);
    var key := Key(u, v);
    assert Voted(h, u, v, h.lead[u].leader);
    b := h.ballots[key].log;
    assert BallotOk(h, key) && BallotMarked(h, a, key);
    assert forall w | t < w <= u - 1 :: !Breaks(h, t, k, w);
    assert Keeps(h, t, k, b, u - 1);
  }

  /** Every leader of a later term was elected with all the committed entries. */
  lemma {:induction false} LaterLeadersHave(n: int, h: History, a: Marks, t: int, k: int, u: int)
    requires n >= 0 && HistoryOk(n, h) && BallotsMarked(h, a)
    requires Committed(n, h, a, t, k) && u in h.lead && t < u
    ensures Head(h, t, k) <= h.lead[u].elected
    decreases u - t
  {
    forall w | t < w < u && w in h.lead ensures Head(h, t, k) <= h.lead[w].elected {
      LaterLeadersHave(n, h, a, t, k, w);
    }
    var b := VoterHeld(n, h, a, t, k, u);
    assert LeadOk(n, h, u);
    CoveredPrefix(h, h.lead[u].elected, h.lead[u].log);
    UpToDateKeeps(n, h, t, k, h.lead[u].elected, b, u);
  }

  /** The same for any term from t on, against the leader's whole log. */
  lemma {:induction false} LeadersHave(n: int, h: History, a: Marks, t: int, k: int, u: int)
    requires n >= 0 && HistoryOk(n, h) && BallotsMarked(h, a)
    requires Committed(n, h, a, t, k) && u in h.lead && t <= u
    ensures Head(h, t, k) <= h.lead[u].log
  {
    if t < u {
      LaterLeadersHave(n, h, a, t, k, u);
      assert LeadOk(n, h, u);
      PrefixTrans(Head(h, t, k), h.lead[u].elected, h.lead[u].log);
    }
  }

  lemma {:induction false} CommittedExtends(n: int, h: History, h': History, a: Marks, a': Marks, key: Key, t: int,
                                        k: int)
    requires Committed(n, h, a, t, k) && Extends(h, h') && Advances(a, a', key)
    ensures Committed(n, h', a', t, k)
  {
    var q :| Held(n, a, t, k, q);
    forall v | v in q ensures Length(a', t, v) >= k {
      LengthAdvances(a, a', key, t, v);
    }
    assert Held(n, a', t, k, q);
  }
}
