/** The main theorems, as statements about runs: no history and no marks appear in them. */
module Safety {
  import opened Types
  import opened NodeSpec
  import opened Clusters
  import opened History
  import opened BaseProof
  import opened BaseRuns
  import opened Moves
  import opened Marks
  import opened Acks
  import opened Completeness
  import opened Commits

  /** FIFO channels, fresh votes and fresh acknowledgements. */
  ghost predicate Orderly(n: int, r: Run) {
    IsRun(n, r) && FreshVotes(n, r) && FreshAcks(n, r) && FifoRun(n, r)
  }

  /** Orderly, and every advancing commit loop stops on an entry of the leader's own term. */
  ghost predicate OrderlyCommits(n: int, r: Run) {
    Orderly(n, r) && OwnTermCommits(n, r)
  }

  // ---------------------------------------------------------------- links between consecutive states

  /** The acting node of step k in its new term: the only place where the step can leave a mark. */
  ghost function StepKey(n: int, r: Run, k: nat): (key: Key)
    requires IsRun(n, r) && k < |r.steps|
    ensures |r.states[k + 1].nodes| == n && 0 <= key.node < n
    ensures key.term == r.states[k + 1].nodes[key.node].term
  {
    assert StepsTo(n, r, k);
    Key(r.states[k + 1].nodes[Actor(r.steps[k])].term, Actor(r.steps[k]))
  }

  lemma {:induction false} AdvancesAt(n: int, r: Run, hs: seq<History>, ms: seq<Marks>, k: nat)
    requires Chronicle(n, r, hs, ms)
    requires Orderly(n, r) && k < |r.steps|
    ensures Extends(hs[k], hs[k + 1]) && Advances(ms[k], ms[k + 1], StepKey(n, r, k))
  {
    assert RecordsStep(n, r, hs, k) && MarksStep(n, r, ms, k);
    AckHolds(n, r, hs, ms, k);
    NodeMoves(n, r.states[k], hs[k], ms[k], r.steps[k]);
    EffectKept(n, r.states[k], hs[k], r.steps[k]);
  }

  lemma {:induction false} CommittedLater(n: int, r: Run, hs: seq<History>, ms: seq<Marks>, j: nat, k: nat, t: int,
                                        x: int)
    requires Chronicle(n, r, hs, ms)
    requires Orderly(n, r) && j <= k < |r.states|
    requires Committed(n, hs[j], ms[j], t, x)
    ensures Committed(n, hs[k], ms[k], t, x)
  {
    if j < k {
      CommittedLater(n, r, hs, ms, j, k - 1, t, x);
      AdvancesAt(n, r, hs, ms, k - 1);
      CommittedExtends(n, hs[k - 1], hs[k], ms[k - 1], ms[k], StepKey(n, r, k - 1), t, x);
    }
  }

  lemma {:induction false} SavedLater(n: int, r: Run, hs: seq<History>, ms: seq<Marks>, j: nat, k: nat, e: Entry)
    requires Chronicle(n, r, hs, ms)
    requires Orderly(n, r) && j <= k < |r.states|
    requires SavedOk(n, hs[j], ms[j], e)
    ensures SavedOk(n, hs[k], ms[k], e)
  {
    if j < k {
      SavedLater(n, r, hs, ms, j, k - 1, e);
      AdvancesAt(n, r, hs, ms, k - 1);
      SavedExtends(n, hs[k - 1], hs[k], ms[k - 1], ms[k], StepKey(n, r, k - 1), e);
    }
  }

  lemma {:induction false} MarkLater(n: int, r: Run, hs: seq<History>, ms: seq<Marks>, j: nat, k: nat, key: Key)
    requires Chronicle(n, r, hs, ms)
    requires Orderly(n, r) && j <= k < |r.states| && key in ms[j]
    ensures key in ms[k]
    ensures ms[j][key].length <= ms[k][key].length
  {
    if j < k {
      MarkLater(n, r, hs, ms, j, k - 1, key);
      AdvancesAt(n, r, hs, ms, k - 1);
    }
  }

  // ---------------------------------------------------------------- state machine safety

  lemma {:induction false} SavedAgree(n: int, h: History, a: Marks, e: Entry, f: Entry)
    requires n >= 0 && HistoryOk(n, h) && BallotsMarked(h, a)
    requires SavedOk(n, h, a, e) && SavedOk(n, h, a, f) && e.index == f.index
    ensures e == f
  {
    var t, k :| Committed(n, h, a, t, k) && 0 <= e.index < k && h.lead[t].log[e.index] == e;
    var u, l :| Committed(n, h, a, u, l) && 0 <= f.index < l && h.lead[u].log[f.index] == f;
    if t <= u {
      LeadersHave(n, h, a, t, k, u);
      assert Head(h, t, k)[e.index] == e;
    } else {
      LeadersHave(n, h, a, u, l, t);
      assert Head(h, u, l)[f.index] == f;
    }
  }

  /** No two nodes ever save different entries at one index, nor one node at two moments. */
  lemma {:induction false} StateMachineSafety(n: int, r: Run, j: nat, k: nat, a: nat, b: nat, e: Entry, f: Entry)
    requires OrderlyCommits(n, r) && j < |r.states| && k < |r.states| && a < n && b < n
    requires |r.states[j].nodes| == n == |r.states[k].nodes|
    requires e in NodeAt(r, j, a).saved && f in NodeAt(r, k, b).saved && e.index == f.index
    ensures e == f
  {
    var hs, ms := WriteChronicle(n, r);
    var last := if j <= k then k else j;
    CommitHolds(n, r, hs, ms, j);
    CommitHolds(n, r, hs, ms, k);
    AckHolds(n, r, hs, ms, last);
    assert NodeCommitted(n, NodeAt(r, j, a), hs[j], ms[j]);
    assert NodeCommitted(n, NodeAt(r, k, b), hs[k], ms[k]);
    SavedLater(n, r, hs, ms, j, last, e);
    SavedLater(n, r, hs, ms, k, last, f);
    SavedAgree(n, hs[last], ms[last], e, f);
  }

  // ---------------------------------------------------------------- leader completeness

  /** In step j, node i leads term t and its commit loop advances to index c. */
  ghost predicate CommitsAt(n: int, r: Run, j: nat, i: int, t: int, c: int)
    requires IsRun(n, r)
  {
    && j < |r.steps| && Actor(r.steps[j]) == i && 0 <= i < n
    && LeadsAt(r, j, i, t) && LeadsAt(r, j + 1, i, t)
    && |r.states[j].nodes| == n
    && NodeAt(r, j, i).commitIndex < NodeAt(r, j + 1, i).commitIndex == c
  }

  lemma {:induction false} LeaderCommits(n: int, r: Run, hs: seq<History>, ms: seq<Marks>, j: nat, i: int, t: int,
                                         c: int)
    requires Chronicle(n, r, hs, ms)
    requires Orderly(n, r) && CommitsAt(n, r, j, i, t, c)
    ensures var s' := NodeAt(r, j + 1, i);
            && 0 <= c < |s'.log| && |s'.matchIndex| == n
            && |Matched(n, i, s'.matchIndex, c)| > n / 2
  {
    AckHolds(n, r, hs, ms, j);
    assert StepsTo(n, r, j);
    EffectMoves(n, r.states[j], r.steps[j]);
  }

  lemma {:induction false} CommitsCommitted(n: int, r: Run, hs: seq<History>, ms: seq<Marks>, j: nat, i: int, t: int,
                                        c: int)
    requires Chronicle(n, r, hs, ms)
    requires OrderlyCommits(n, r) && CommitsAt(n, r, j, i, t, c)
    ensures Committed(n, hs[j + 1], ms[j + 1], t, c + 1)
    ensures 0 <= c < |NodeAt(r, j + 1, i).log|
    ensures Head(hs[j + 1], t, c + 1) == NodeAt(r, j + 1, i).log[..c + 1]
  {
    LeaderCommits(n, r, hs, ms, j, i, t, c);
    AckHolds(n, r, hs, ms, j + 1);
    var s' := NodeAt(r, j + 1, i);
    assert NodeOk(n, i, s', hs[j + 1]) && NodeMarked(n, i, s', hs[j + 1], ms[j + 1]);
    assert StepsTo(n, r, j);
    assert OwnTermCommit(n, r.states[j], r.steps[j]);
    MatchCommits(n, i, s', hs[j + 1], ms[j + 1], c);
  }

  lemma {:induction false} CommittedThen(n: int, r: Run, hs: seq<History>, ms: seq<Marks>, j: nat, i: int, t: int,
                                        c: int, last: nat)
    requires Chronicle(n, r, hs, ms)
    requires OrderlyCommits(n, r) && CommitsAt(n, r, j, i, t, c) && j + 1 <= last < |r.states|
    ensures Committed(n, hs[last], ms[last], t, c + 1)
    ensures 0 <= c < |NodeAt(r, j + 1, i).log|
    ensures Head(hs[last], t, c + 1) == NodeAt(r, j + 1, i).log[..c + 1]
  {
    CommitsCommitted(n, r, hs, ms, j, i, t, c);
    CommittedLater(n, r, hs, ms, j + 1, last, t, c + 1);
    HistoryExtends(n, r, hs, j + 1, last);
    HeadExtends(hs[j + 1], hs[last], t, c + 1);
  }

  lemma {:induction false} ElectedWithin(n: int, r: Run, hs: seq<History>, k: nat, b: int, u: int, last: nat)
    requires Records(n, r, hs)
    requires IsRun(n, r) && FreshVotes(n, r) && k <= last < |r.states| && LeadsAt(r, k, b, u)
    ensures u in hs[last].lead && hs[last].lead[u].elected <= NodeAt(r, k, b).log
  {
    BaseHolds(n, r, hs, k);
    assert NodeOk(n, b, NodeAt(r, k, b), hs[k]);
    assert LeadOk(n, hs[k], u);
    HistoryExtends(n, r, hs, k, last);
  }

  /** An entry committed by a leader is at the same index in the log of every leader of a later term, always. */
  lemma {:induction false} LeaderCompleteness(n: int, r: Run, j: nat, i: int, t: int, c: int, k: nat, b: int, u: int)
    requires OrderlyCommits(n, r) && CommitsAt(n, r, j, i, t, c)
    requires LeadsAt(r, k, b, u) && t < u
    ensures 0 <= c < |NodeAt(r, j + 1, i).log| && NodeAt(r, j + 1, i).log[..c + 1] <= NodeAt(r, k, b).log
  {
    var hs, ms := WriteChronicle(n, r);
    var last := if j + 1 <= k then k else j + 1;
    CommittedThen(n, r, hs, ms, j, i, t, c, last);
    ElectedWithin(n, r, hs, k, b, u, last);
    AckHolds(n, r, hs, ms, last);
    LaterLeadersHave(n, hs[last], ms[last], t, c + 1, u);
    PrefixTrans(NodeAt(r, j + 1, i).log[..c + 1], hs[last].lead[u].elected, NodeAt(r, k, b).log);
  }

  // ---------------------------------------------------------------- durability

  /** At some moment up to k, node v was in term t with all of log. */
  ghost predicate HadLog(r: Run, k: nat, v: int, t: int, log: seq<Entry>) {
    exists m: nat :: HasLog(r, m, v, t, log) && m <= k
  }

  ghost predicate HasLog(r: Run, m: nat, v: int, t: int, log: seq<Entry>) {
    && m < |r.states| && 0 <= v < |r.states[m].nodes|
    && NodeAt(r, m, v).term == t && log <= NodeAt(r, m, v).log
  }

  /** The mark made in the last step is the acting node's log. */
  lemma {:induction false} MarkIsLog(n: int, r: Run, hs: seq<History>, ms: seq<Marks>, k: nat, key: Key)
    requires Chronicle(n, r, hs, ms)
    requires Orderly(n, r) && 0 < k < |r.states| && key in ms[k]
    requires |r.states[k].nodes| == n && 0 <= key.node < n && key.term == NodeAt(r, k, key.node).term
    ensures HasLog(r, k, key.node, key.term, Head(hs[k], key.term, ms[k][key].length))
  {
    AckHolds(n, r, hs, ms, k);
    var s' := NodeAt(r, k, key.node);
    var h := hs[k];
    var a := ms[k];
    assert NodeMarked(n, key.node, s', h, a) && MarkOk(h, a, key);
    if a[key].length > 0 {
      assert Keeps(h, s'.term, a[key].length, s'.log, s'.term);
    }
  }

  lemma {:induction false} OldHead(n: int, r: Run, hs: seq<History>, ms: seq<Marks>, k: nat, key: Key)
    requires Chronicle(n, r, hs, ms)
    requires Orderly(n, r) && k < |r.steps| && key in ms[k]
    ensures Head(hs[k + 1], key.term, ms[k][key].length)
            == Head(hs[k], key.term, ms[k][key].length)
  {
    AckHolds(n, r, hs, ms, k);
    assert MarkOk(hs[k], ms[k], key);
    AdvancesAt(n, r, hs, ms, k);
    HeadExtends(hs[k], hs[k + 1], key.term, ms[k][key].length);
  }

  lemma {:induction false} NewMarkIsLog(n: int, r: Run, hs: seq<History>, ms: seq<Marks>, k: nat, key: Key)
    requires Chronicle(n, r, hs, ms)
    requires Orderly(n, r) && k < |r.steps| && key in ms[k + 1]
    requires !(key in ms[k] && ms[k + 1][key] == ms[k][key])
    ensures HasLog(r, k + 1, key.node, key.term, Head(hs[k + 1], key.term, ms[k + 1][key].length))
  {
    AdvancesAt(n, r, hs, ms, k);
    MarkIsLog(n, r, hs, ms, k + 1, key);
  }

  lemma {:induction false} HadLogLater(r: Run, k: nat, l: nat, v: int, t: int, log: seq<Entry>)
    requires HadLog(r, k, v, t, log) && k <= l
    ensures HadLog(r, l, v, t, log)
  {
  }

  /** Every mark was true of its node when it was made. */
  lemma {:induction false} MarkWitnessed(n: int, r: Run, hs: seq<History>, ms: seq<Marks>, k: nat, key: Key)
    requires Chronicle(n, r, hs, ms)
    requires Orderly(n, r) && k < |r.states| && key in ms[k]
    ensures HadLog(r, k, key.node, key.term, Head(hs[k], key.term, ms[k][key].length))
    decreases k
  {
    if key in ms[k - 1] && ms[k][key] == ms[k - 1][key] {
      MarkWitnessed(n, r, hs, ms, k - 1, key);
      OldHead(n, r, hs, ms, k - 1, key);
      HadLogLater(r, k - 1, k, key.node, key.term, Head(hs[k], key.term, ms[k][key].length));
    } else {
      NewMarkIsLog(n, r, hs, ms, k - 1, key);
    }
  }

  /** When a leader advances to c, a majority, it included, has had its first c + 1 entries in its term. */
  lemma {:induction false} MajorityDurability(n: int, r: Run, j: nat, i: int, t: int, c: int) returns (q: set<int>)
    requires Orderly(n, r) && CommitsAt(n, r, j, i, t, c)
    ensures 0 <= c < |NodeAt(r, j + 1, i).log|
    ensures IsQuorum(n, q) && i in q
    ensures forall v | v in q :: HadLog(r, j + 1, v, t, NodeAt(r, j + 1, i).log[..c + 1])
  {
    var hs, ms := WriteChronicle(n, r);
    LeaderCommits(n, r, hs, ms, j, i, t, c);
    AckHolds(n, r, hs, ms, j + 1);
    var s' := NodeAt(r, j + 1, i);
    var h := hs[j + 1];
    var a := ms[j + 1];
    assert NodeOk(n, i, s', h) && NodeMarked(n, i, s', h, a);
    q := Matched(n, i, s'.matchIndex, c);
    forall v | v in q ensures HadLog(r, j + 1, v, t, s'.log[..c + 1]) {
      assert Length(a, t, v) >= c + 1;
      MarkWitnessed(n, r, hs, ms, j + 1, Key(t, v));
      assert MarkOk(h, a, Key(t, v));
      assert s'.log[..c + 1] <= Head(h, t, a[Key(t, v)].length);
      var m: nat :| HasLog(r, m, v, t, Head(h, t, a[Key(t, v)].length)) && m <= j + 1;
      PrefixTrans(s'.log[..c + 1], Head(h, t, a[Key(t, v)].length), NodeAt(r, m, v).log);
      assert HasLog(r, m, v, t, s'.log[..c + 1]);
    }
  }
}
