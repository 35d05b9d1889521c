/**
  What followers have accepted: for each term and node, the length and commitIndex of the log the node took
  from that term's leader (for the leader itself, its own). Node-local part; cluster and order come in Acks.
 */
module Marks {
  import opened Types
  import opened NodeSpec
  import opened History
  import opened BaseProof
  import opened Moves

  datatype Mark = Mark(length: int, commit: int)
  type Marks = map<Key, Mark>

  function Length(a: Marks, t: int, v: int): int {
    if Key(t, v) in a then a[Key(t, v)].length else 0
  }

  /** The marks after node i has ended a step in state s'. */
  function Remember(i: int, s: NodeState, p: Option<Packet>, s': NodeState, a: Marks): Marks {
    if s'.role == Leader || Accepted(s, p) then a[Key(s'.term, i) := Mark(|s'.log|, s'.commitIndex)] else a
  }

  /** The first k entries of the leader's log of term t. */
  function Head(h: History, t: int, k: int): seq<Entry> {
    if t in h.lead && 0 <= k <= |h.lead[t].log| then h.lead[t].log[..k] else []
  }

  /** The leader of term u was elected without the first k entries of term t's leader. */
  ghost predicate Breaks(h: History, t: int, k: int, u: int) {
    u in h.lead && !(Head(h, t, k) <= h.lead[u].elected)
  }

  /** A log still starts with term t's first k entries, or some leader of a term after t, up to hi, lacked them. */
  ghost predicate Keeps(h: History, t: int, k: int, log: seq<Entry>, hi: int) {
    Head(h, t, k) <= log || exists u :: t < u <= hi && Breaks(h, t, k, u)
  }

  ghost predicate MarkOk(h: History, a: Marks, key: Key)
    requires key in a
  {
    && key.term in h.lead
    && |h.lead[key.term].elected| <= a[key].length <= |h.lead[key.term].log|
    && Key(key.term, h.lead[key.term].leader) in a
    && a[key].commit <= a[Key(key.term, h.lead[key.term].leader)].commit
  }

  ghost predicate MarksOk(h: History, a: Marks) {
    forall key {:trigger MarkOk(h, a, key)} | key in a :: MarkOk(h, a, key)
  }

  /** Node v's log, seen when its term was hi or less, keeps all it had accepted in the terms before `before`. */
  ghost predicate KeepsMarks(h: History, a: Marks, v: int, before: int, log: seq<Entry>, hi: int) {
    forall t, k {:trigger Keeps(h, t, k, log, hi)} ::
      Key(t, v) in a && t < before && 0 < k <= a[Key(t, v)].length ==> Keeps(h, t, k, log, hi)
  }

  /** A vote that can have counted was cast with a log that kept everything, up to the terms before. */
  ghost predicate BallotMarked(h: History, a: Marks, key: Key)
    requires key in h.ballots
  {
    (key.term in h.lead ==> key.node in h.lead[key.term].quorum)
    ==> KeepsMarks(h, a, key.node, key.term, h.ballots[key].log, key.term - 1)
  }

  ghost predicate BallotsMarked(h: History, a: Marks) {
    forall key {:trigger BallotMarked(h, a, key)} | key in h.ballots :: BallotMarked(h, a, key)
  }

  ghost predicate LeaderMarked(n: int, i: int, s: NodeState, h: History, a: Marks) {
    && s.term in h.lead
    && Key(s.term, i) in a
    && a[Key(s.term, i)] == Mark(|s.log|, s.commitIndex)
    && (forall f | 0 <= f < n == |s.matchIndex| :: s.matchIndex[f] + 1 <= Length(a, s.term, f))
    && (forall f | 0 <= f < n == |s.nextIndex| ::
          s.nextIndex[f] <= |h.lead[s.term].elected| || s.nextIndex[f] <= Length(a, s.term, f))
  }

  ghost predicate NodeMarked(n: int, i: int, s: NodeState, h: History, a: Marks) {
    && (forall key | key in a && key.node == i :: key.term <= s.term)
    && KeepsMarks(h, a, i, s.term + 1, s.log, s.term)
    && (s.role == Leader ==> LeaderMarked(n, i, s, h, a))
    && (Key(s.term, i) in a ==> s.commitIndex == a[Key(s.term, i)].commit)
  }

  ghost predicate MessageMarked(h: History, a: Marks, src: int, dst: int, m: Message) {
    match m
    case AppendEntries(t, _, prev, _, commit, _) =>
      && t in h.lead
      && Key(t, src) in a && commit <= a[Key(t, src)].commit
      && (prev + 1 <= |h.lead[t].elected| || prev + 1 <= Length(a, t, dst))
      && AheadOf(a, t, dst, Total(m), commit)
    case AppendEntriesResponse(t, success, newIndex) =>
      success ==> Key(t, src) in a && newIndex <= a[Key(t, src)].length
    case _ => true
  }

  /** Node v's mark of term t, if it has one, is no further than this length and commit. */
  ghost predicate AheadOf(a: Marks, t: int, v: int, length: int, commit: int) {
    Key(t, v) in a ==> a[Key(t, v)].length <= length && a[Key(t, v)].commit <= commit
  }

  /** From a to a' only the mark at key has changed, and it has not gone back. */
  ghost predicate Advances(a: Marks, a': Marks, key: Key) {
    && (forall o | o in a :: o in a' && a[o].length <= a'[o].length && a[o].commit <= a'[o].commit)
    && (forall o | o in a' && o != key :: o in a && a'[o] == a[o])
    && (key in a' ==> a'[key].length >= 0)
  }

  lemma {:induction false} LengthAdvances(a: Marks, a': Marks, key: Key, t: int, v: int)
    requires Advances(a, a', key)
    ensures Length(a, t, v) <= Length(a', t, v)
  {
  }

  // ---------------------------------------------------------------- what stays as history and marks grow

  lemma {:induction false} HeadExtends(h: History, h': History, t: int, k: int)
    requires Extends(h, h') && t in h.lead && 0 <= k <= |h.lead[t].log|
    ensures Head(h', t, k) == Head(h, t, k)
  {
    SameSlice(h.lead[t].log, h'.lead[t].log, 0, k);
  }

  lemma {:induction false} KeepsExtends(h: History, h': History, t: int, k: int, log: seq<Entry>, hi: int,
                                        log': seq<Entry>, hi': int)
    requires Keeps(h, t, k, log, hi) && Extends(h, h') && t in h.lead && 0 <= k <= |h.lead[t].log|
    requires log <= log' && hi <= hi'
    ensures Keeps(h', t, k, log', hi')
  {
    HeadExtends(h, h', t, k);
    if Head(h, t, k) <= log {
      PrefixTrans(Head(h, t, k), log, log');
    } else {
      var u :| t < u <= hi && Breaks(h, t, k, u);
      assert Breaks(h', t, k, u);
    }
  }

  lemma {:induction false} KeepsMarksExtends(h: History, h': History, a: Marks, a': Marks, key: Key,
                                            v: int, before: int, log: seq<Entry>, hi: int, log': seq<Entry>, hi': int)
    requires KeepsMarks(h, a, v, before, log, hi) && MarksOk(h, a) && Extends(h, h') && Advances(a, a', key)
    requires log <= log' && hi <= hi' && (key.node != v || key.term >= before)
    ensures KeepsMarks(h', a', v, before, log', hi')
  {
    forall t, k | Key(t, v) in a' && t < before && 0 < k <= a'[Key(t, v)].length
      ensures Keeps(h', t, k, log', hi')
    {
      assert Key(t, v) != key;
      assert MarkOk(h, a, Key(t, v));
      assert Keeps(h, t, k, log, hi);
      KeepsExtends(h, h', t, k, log, hi, log', hi');
    }
  }

  lemma {:induction false} MessageMarkedExtends(h: History, h': History, a: Marks, a': Marks, key: Key, src: int,
                                        dst: int, m: Message)
    requires MessageMarked(h, a, src, dst, m) && Extends(h, h') && Advances(a, a', key)
    requires m.AppendEntries? && key == Key(m.term, dst) ==> AheadOf(a', m.term, dst, Total(m), m.leaderCommit)
    ensures MessageMarked(h', a', src, dst, m)
  {
  }

  lemma {:induction false} LeaderMarkedExtends(n: int, j: int, s: NodeState, h: History, h': History, a: Marks,
                                        a': Marks, key: Key)
    requires LeaderMarked(n, j, s, h, a) && Extends(h, h') && Advances(a, a', key) && key.node != j
    ensures LeaderMarked(n, j, s, h', a')
  {
    forall v ensures Length(a, s.term, v) <= Length(a', s.term, v) {
      LengthAdvances(a, a', key, s.term, v);
    }
  }

  lemma {:induction false} NodeMarkedExtends(n: int, j: int, s: NodeState, h: History, h': History, a: Marks,
                                        a': Marks, key: Key)
    requires NodeMarked(n, j, s, h, a) && MarksOk(h, a) && Extends(h, h') && Advances(a, a', key) && key.node != j
    ensures NodeMarked(n, j, s, h', a')
  {
    KeepsMarksExtends(h, h', a, a', key, j, s.term + 1, s.log, s.term, s.log, s.term);
    if s.role == Leader {
      LeaderMarkedExtends(n, j, s, h, h', a, a', key);
    }
  }
}
