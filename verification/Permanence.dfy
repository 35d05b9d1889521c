/** What a node has committed it never drops or overwrites, whoever leads: the resize of its log spares it. */
module Permanence {
  import opened Types
  import opened Clusters
  import opened History
  import opened BaseProof
  import opened BaseRuns
  import opened Bounds
  import opened Shape
  import opened Moves
  import opened Marks
  import opened Acks
  import opened Completeness
  import opened Commits
  import opened Safety

  /** Node i took its first c + 1 entries from term t's leader, and they are below something committed by then. */
  ghost predicate TakenFrom(n: int, i: int, c: int, log: seq<Entry>, h: History, a: Marks, t: int) {
    && Key(t, i) in a && t in h.lead
    && 0 <= c < |log| && c < a[Key(t, i)].length <= |h.lead[t].log|
    && h.lead[t].log[..c + 1] == log[..c + 1]
    && Backed(n, h, a, c, t)
  }

  ghost predicate CommitTaken(n: int, i: int, s: NodeState, h: History, a: Marks) {
    s.commitIndex >= 0 ==> exists t :: TakenFrom(n, i, s.commitIndex, s.log, h, a, t)
  }

  // ---------------------------------------------------------------- one step

  /** A node that keeps its log and commitIndex. */
  lemma {:induction false} TakenStays(n: int, i: int, s: NodeState, s': NodeState, h: History, h': History, a: Marks,
                                      a': Marks, key: Key)
    requires CommitTaken(n, i, s, h, a) && s'.log == s.log && s'.commitIndex == s.commitIndex
    requires Extends(h, h') && Advances(a, a', key) && MarksOk(h', a')
    ensures CommitTaken(n, i, s', h', a')
  {
    if s.commitIndex >= 0 {
      var c := s.commitIndex;
      var t :| TakenFrom(n, i, c, s.log, h, a, t);
      assert MarkOk(h', a', Key(t, i));
      BackedExtends(n, h, h', a, a', key, c, t, t);
      SameSlice(h.lead[t].log, h'.lead[t].log, 0, c + 1);
      hide Backed;
      assert TakenFrom(n, i, c, s'.log, h', a', t);
    }
  }

  /** A leader, or a node that has just accepted an append: its mark is its whole log. */
  lemma {:induction false} TakenNew(n: int, i: int, s: NodeState, h: History, a: Marks)
    requires NodeMarked(n, i, s, h, a) && MarksOk(h, a) && Backed(n, h, a, s.commitIndex, s.term)
    requires s.commitIndex < |s.log| && Key(s.term, i) in a && a[Key(s.term, i)].length == |s.log|
    ensures CommitTaken(n, i, s, h, a)
  {
    if s.commitIndex >= 0 {
      var t := s.term;
      assert MarkOk(h, a, Key(t, i));
      assert Keeps(h, t, |s.log|, s.log, t);
      assert h.lead[t].log[..|s.log|] == s.log;
      SameSlice(s.log, h.lead[t].log, 0, s.commitIndex + 1);
      hide Backed;
      assert TakenFrom(n, i, s.commitIndex, s.log, h, a, t);
    }
  }

  // ---------------------------------------------------------------- over a run

  /** What the invariants say of node i in state k. */
  lemma {:induction false} NodeFactsAt(n: int, r: Run, hs: seq<History>, ms: seq<Marks>, k: nat, i: int)
    requires Chronicle(n, r, hs, ms) && OrderlyCommits(n, r) && k < |r.states| && 0 <= i < n
    ensures |r.states[k].nodes| == n && MarksOk(hs[k], ms[k]) && NodeBound(NodeAt(r, k, i))
    ensures NodeMarked(n, i, NodeAt(r, k, i), hs[k], ms[k])
    ensures Backed(n, hs[k], ms[k], NodeAt(r, k, i).commitIndex, NodeAt(r, k, i).term)
  {
    CommitHolds(n, r, hs, ms, k);
    assert NodeInside(NodeAt(r, k, i), hs[k]) && NodeCommitted(n, NodeAt(r, k, i), hs[k], ms[k]);
    hide NodeBound, NodeMarked, Backed;
  }

  /** A step leaves node i as it was, or with its whole log marked. */
  lemma {:induction false} MarkedOrQuiet(n: int, r: Run, ms: seq<Marks>, k: nat, i: int)
    requires IsRun(n, r) && k < |r.steps| && |ms| == |r.states| && MarksStep(n, r, ms, k) && 0 <= i < n
    ensures |r.states[k].nodes| == n == |r.states[k + 1].nodes|
    ensures var (s, s') := (NodeAt(r, k, i), NodeAt(r, k + 1, i));
            || (s'.log == s.log && s'.commitIndex == s.commitIndex)
            || (Key(s'.term, i) in ms[k + 1] && ms[k + 1][Key(s'.term, i)].length == |s'.log|)
  {
    if i == Actor(r.steps[k]) {
      EffectMoves(n, r.states[k], r.steps[k]);
    }
    hide Effect, Accepted, AcceptMove, LeadMove;
  }

  lemma {:induction false} TakenAt(n: int, r: Run, hs: seq<History>, ms: seq<Marks>, k: nat, i: int)
    requires Chronicle(n, r, hs, ms) && OrderlyCommits(n, r) && k < |r.states| && 0 <= i < n
    ensures |r.states[k].nodes| == n && CommitTaken(n, i, NodeAt(r, k, i), hs[k], ms[k])
  {
    if k > 0 {
      TakenAt(n, r, hs, ms, k - 1, i);
      TakenStep(n, r, hs, ms, k - 1, i);
    }
  }

  lemma {:induction false} TakenStep(n: int, r: Run, hs: seq<History>, ms: seq<Marks>, k: nat, i: int)
    requires Chronicle(n, r, hs, ms) && OrderlyCommits(n, r) && k < |r.steps| && 0 <= i < n == |r.states[k].nodes|
    requires CommitTaken(n, i, NodeAt(r, k, i), hs[k], ms[k])
    ensures |r.states[k + 1].nodes| == n && CommitTaken(n, i, NodeAt(r, k + 1, i), hs[k + 1], ms[k + 1])
  {
    hide CommitTaken, Extends, Advances, MarksOk, NodeMarked, Backed, MarksStep, StepsTo;
    assert MarksStep(n, r, ms, k);
    MarkedOrQuiet(n, r, ms, k, i);
    var (s, s') := (NodeAt(r, k, i), NodeAt(r, k + 1, i));
    NodeFactsAt(n, r, hs, ms, k + 1, i);
    AdvancesAt(n, r, hs, ms, k);
    if s'.log == s.log && s'.commitIndex == s.commitIndex {
      TakenStays(n, i, s, s', hs[k], hs[k + 1], ms[k], ms[k + 1], StepKey(n, r, k));
    } else {
      TakenNew(n, i, s', hs[k + 1], ms[k + 1]);
    }
  }

  // ---------------------------------------------------------------- no later leader can drop it

  /** No leader after term t lacked what was committed by then, so a log that has a mark of it still holds it. */
  lemma {:induction false} BackedKept(n: int, h: History, a: Marks, t: int, c: int, log: seq<Entry>, hi: int)
    requires n >= 0 && HistoryOk(n, h) && BallotsMarked(h, a)
    requires t in h.lead && 0 <= c < |h.lead[t].log| && Backed(n, h, a, c, t) && Keeps(h, t, c + 1, log, hi)
    ensures Head(h, t, c + 1) <= log
  {
    if !(Head(h, t, c + 1) <= log) {
      var u :| t < u <= hi && Breaks(h, t, c + 1, u);
      var t0, k0 :| t0 <= t && c < k0 && Committed(n, h, a, t0, k0);
      LaterLeadersHave(n, h, a, t0, k0, u);
      LeadersHave(n, h, a, t0, k0, t);
      CutPrefix(Head(h, t0, k0), h.lead[t].log, h.lead[u].elected, c + 1);
      assert false;
    }
  }

  lemma {:induction false} CutPrefix<T>(x: seq<T>, a: seq<T>, b: seq<T>, k: nat)
    requires x <= a && x <= b && k <= |x|
    ensures a[..k] <= b
  {
  }

  lemma {:induction false} BackedLater(n: int, r: Run, hs: seq<History>, ms: seq<Marks>, j: nat, k: nat, c: int,
                                       t: int)
    requires Chronicle(n, r, hs, ms) && Orderly(n, r) && j <= k < |r.states|
    requires Backed(n, hs[j], ms[j], c, t)
    ensures Backed(n, hs[k], ms[k], c, t)
  {
    if c >= 0 {
      var t0, k0 :| t0 <= t && c < k0 && Committed(n, hs[j], ms[j], t0, k0);
      CommittedLater(n, r, hs, ms, j, k, t0, k0);
    }
  }

  lemma {:induction false} TakenKept(n: int, r: Run, hs: seq<History>, ms: seq<Marks>, j: nat, k: nat, i: int, c: int,
                                     t: int)
    requires Chronicle(n, r, hs, ms) && OrderlyCommits(n, r) && j <= k < |r.states| && 0 <= i < n
    requires |r.states[j].nodes| == n == |r.states[k].nodes|
    requires TakenFrom(n, i, c, NodeAt(r, j, i).log, hs[j], ms[j], t)
    ensures NodeAt(r, j, i).log[..c + 1] <= NodeAt(r, k, i).log
  {
    var s := NodeAt(r, k, i);
    BackedLater(n, r, hs, ms, j, k, c, t);
    MarkLater(n, r, hs, ms, j, k, Key(t, i));
    HistoryExtends(n, r, hs, j, k);
    HeadExtends(hs[j], hs[k], t, c + 1);
    AckHolds(n, r, hs, ms, k);
    NodeFactsAt(n, r, hs, ms, k, i);
    hide Chronicle, OrderlyCommits, Backed;
    assert Keeps(hs[k], t, c + 1, s.log, s.term);
    BackedKept(n, hs[k], ms[k], t, c, s.log, s.term);
  }

  /** The entries that node i has committed at one moment are in its log, in place, at every later moment. */
  lemma {:induction false} CommittedStays(n: int, r: Run, j: nat, k: nat, i: int)
    requires OrderlyCommits(n, r) && j <= k < |r.states| && 0 <= i < n
    requires |r.states[j].nodes| == n == |r.states[k].nodes|
    ensures var (s, c) := (NodeAt(r, j, i), NodeAt(r, j, i).commitIndex);
            -1 <= c < |s.log| && s.log[..c + 1] <= NodeAt(r, k, i).log
  {
    var hs, ms := WriteChronicle(n, r);
    var s := NodeAt(r, j, i);
    NodeFactsAt(n, r, hs, ms, j, i);
    TakenAt(n, r, hs, ms, j, i);
    hide NodeMarked, MarksOk, Backed;
    if s.commitIndex >= 0 {
      var t :| TakenFrom(n, i, s.commitIndex, s.log, hs[j], ms[j], t);
      TakenKept(n, r, hs, ms, j, k, i, s.commitIndex, t);
    }
  }
}
