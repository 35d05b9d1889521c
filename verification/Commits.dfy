/** What nodes commit and save, under all four hypotheses. */
module Commits {
  import opened Types
  import opened NodeSpec
  import opened Clusters
  import opened History
  import opened BaseProof
  import opened BaseRuns
  import opened Bounds
  import opened Moves
  import opened Order
  import opened Marks
  import opened MarkStep
  import opened Acks
  import opened Completeness

  /** Index c is below something committed in term hi or before. */
  ghost predicate Backed(n: int, h: History, a: Marks, c: int, hi: int) {
    c < 0 || exists t, k :: t <= hi && c < k && Committed(n, h, a, t, k)
  }

  /** A saved entry is a committed one. */
  ghost predicate SavedOk(n: int, h: History, a: Marks, e: Entry) {
    exists t, k :: Committed(n, h, a, t, k) && 0 <= e.index < k && h.lead[t].log[e.index] == e
  }

  ghost predicate NodeCommitted(n: int, s: NodeState, h: History, a: Marks) {
    && Backed(n, h, a, s.commitIndex, s.term)
    && (forall e | e in s.saved :: SavedOk(n, h, a, e))
  }

  ghost predicate MessageCommitted(n: int, h: History, a: Marks, m: Message) {
    m.AppendEntries? ==> Backed(n, h, a, m.leaderCommit, m.term)
  }

  ghost predicate CommitInv(n: int, c: Cluster, h: History, a: Marks) {
    && AckInv(n, c, h, a)
    && (forall i | 0 <= i < n :: NodeCommitted(n, c.nodes[i], h, a))
    && (forall i, p | 0 <= i < n && p in c.nodes[i].queue :: MessageCommitted(n, h, a, p.msg))
    && (forall p | p in c.net :: MessageCommitted(n, h, a, p.msg))
  }

  // ---------------------------------------------------------------- what stays

  lemma {:induction false} BackedExtends(n: int, h: History, h': History, a: Marks, a': Marks, key: Key, c: int,
                                        hi: int, hi': int)
    requires Backed(n, h, a, c, hi) && Extends(h, h') && Advances(a, a', key) && hi <= hi'
    ensures Backed(n, h', a', c, hi')
  {
    if c >= 0 {
      var t, k :| t <= hi && c < k && Committed(n, h, a, t, k);
      CommittedExtends(n, h, h', a, a', key, t, k);
    }
  }

  lemma {:induction false} SavedExtends(n: int, h: History, h': History, a: Marks, a': Marks, key: Key, e: Entry)
    requires SavedOk(n, h, a, e) && Extends(h, h') && Advances(a, a', key)
    ensures SavedOk(n, h', a', e)
  {
    var t, k :| Committed(n, h, a, t, k) && 0 <= e.index < k && h.lead[t].log[e.index] == e;
    CommittedExtends(n, h, h', a, a', key, t, k);
    assert h'.lead[t].log[e.index] == e;
  }

  lemma {:induction false} NodeCommittedExtends(n: int, s: NodeState, h: History, h': History, a: Marks, a': Marks,
                                        key: Key, s': NodeState)
    requires NodeCommitted(n, s, h, a) && Extends(h, h') && Advances(a, a', key)
    requires s'.commitIndex == s.commitIndex && s'.saved == s.saved && s.term <= s'.term
    ensures NodeCommitted(n, s', h', a')
  {
    BackedExtends(n, h, h', a, a', key, s.commitIndex, s.term, s'.term);
    forall e | e in s'.saved ensures SavedOk(n, h', a', e) {
      SavedExtends(n, h, h', a, a', key, e);
    }
  }

  lemma {:induction false} MessageCommittedExtends(n: int, h: History, h': History, a: Marks, a': Marks, key: Key,
                                        m: Message)
    requires MessageCommitted(n, h, a, m) && Extends(h, h') && Advances(a, a', key)
    ensures MessageCommitted(n, h', a', m)
  {
    if m.AppendEntries? {
      BackedExtends(n, h, h', a, a', key, m.leaderCommit, m.term, m.term);
    }
  }

  // ---------------------------------------------------------------- a follower saves

  /** Up to a backed index, a log that starts its term's leader log holds committed entries. */
  lemma {:induction false} BackedEntry(n: int, h: History, a: Marks, c: int, t: int, log: seq<Entry>, x: int)
    requires n >= 0 && HistoryOk(n, h) && BallotsMarked(h, a) && t in h.lead && log <= h.lead[t].log
    requires Backed(n, h, a, c, t) && 0 <= x <= c && x < |log|
    ensures SavedOk(n, h, a, log[x])
  {
    var u, k :| u <= t && c < k && Committed(n, h, a, u, k);
    LeadersHave(n, h, a, u, k, t);
    assert LeadOk(n, h, t);
    assert Head(h, u, k)[x] == h.lead[u].log[x];
    assert log[x] == h.lead[t].log[x] == h.lead[u].log[x];
  }

  lemma {:induction false} BackedEntries(n: int, h: History, a: Marks, c: int, t: int, log: seq<Entry>, lo: int)
    requires n >= 0 && HistoryOk(n, h) && BallotsMarked(h, a) && t in h.lead && log <= h.lead[t].log
    requires Backed(n, h, a, c, t) && 0 <= lo <= c + 1 <= |log|
    ensures forall e | e in log[lo..c + 1] :: SavedOk(n, h, a, e)
  {
    forall e | e in log[lo..c + 1] ensures SavedOk(n, h, a, e) {
      var x :| lo <= x < c + 1 && e == log[x];
      BackedEntry(n, h, a, c, t, log, x);
    }
  }

  lemma {:induction false} AcceptCommitted(n: int, s: NodeState, p: Packet, s': NodeState, h: History, h': History,
                                        a: Marks, a': Marks, key: Key)
    requires n >= 0 && HistoryOk(n, h') && BallotsMarked(h', a') && Extends(h, h') && Advances(a, a', key)
    requires NodeCommitted(n, s, h, a) && MessageCommitted(n, h, a, p.msg)
    requires Accepted(s, Some(p)) && AcceptMove(s, p, s')
    ensures s'.term in h'.lead && s'.log <= h'.lead[s'.term].log ==> NodeCommitted(n, s', h', a')
  {
    if s'.term in h'.lead && s'.log <= h'.lead[s'.term].log {
      var (c, commit) := (s.commitIndex, p.msg.leaderCommit);
      BackedExtends(n, h, h', a, a', key, commit, p.msg.term, p.msg.term);
      forall e | e in s.saved ensures SavedOk(n, h', a', e) {
        SavedExtends(n, h, h', a, a', key, e);
      }
      if -1 <= c < commit < |s'.log| {
        BackedEntries(n, h', a', commit, s'.term, s'.log, c + 1);
      }
      hide SavedOk, Backed, AcceptedLog, Accepts, HistoryOk, BallotsMarked;
    }
  }

  // ---------------------------------------------------------------- a leader saves

  /** A majority that matches an entry of the leader's own term commits it. */
  lemma {:induction false} MatchCommits(n: int, i: int, s: NodeState, h: History, a: Marks, c: int)
    requires 0 <= i < n && |s.matchIndex| == n && s.role == Leader && LeaderOk(i, s, h) && LeaderMarked(n, i, s, h, a)
    requires 0 <= c < |s.log| && s.log[c].term == s.term
    requires |Matched(n, i, s.matchIndex, c)| > n / 2
    ensures Committed(n, h, a, s.term, c + 1)
  {
    assert Held(n, a, s.term, c + 1, Matched(n, i, s.matchIndex, c));
  }

  lemma {:induction false} CommittedEntry(n: int, h: History, a: Marks, t: int, k: int, x: int)
    requires HistoryOk(n, h) && Committed(n, h, a, t, k) && 0 <= x < k
    ensures SavedOk(n, h, a, h.lead[t].log[x])
  {
    assert LeadOk(n, h, t);
    assert h.lead[t].log[x].index == x;
  }

  lemma {:induction false} CommittedEntries(n: int, h: History, a: Marks, t: int, lo: int, hi: int)
    requires HistoryOk(n, h) && Committed(n, h, a, t, hi) && 0 <= lo <= hi
    ensures forall e | e in h.lead[t].log[lo..hi] :: SavedOk(n, h, a, e)
  {
    forall e | e in h.lead[t].log[lo..hi] ensures SavedOk(n, h, a, e) {
      var x :| lo <= x < hi && e == h.lead[t].log[x];
      CommittedEntry(n, h, a, t, hi, x);
    }
  }

  lemma {:induction false} SavedStay(n: int, saved: seq<Entry>, h: History, h': History, a: Marks, a': Marks, key: Key)
    requires forall e | e in saved :: SavedOk(n, h, a, e)
    requires Extends(h, h') && Advances(a, a', key)
    ensures forall e | e in saved :: SavedOk(n, h', a', e)
  {
    forall e | e in saved ensures SavedOk(n, h', a', e) {
      SavedExtends(n, h, h', a, a', key, e);
    }
  }

  /** A leader whose commit loop has advanced to an entry of its own term. */
  lemma {:induction false} AdvanceCommitted(n: int, s: NodeState, s': NodeState, h: History, h': History, a: Marks,
                                        a': Marks, key: Key)
    requires HistoryOk(n, h') && Extends(h, h') && Advances(a, a', key)
    requires forall e | e in s.saved :: SavedOk(n, h, a, e)
    requires -1 <= s.commitIndex < s'.commitIndex < |s.log|
    requires s'.saved == s.saved + s.log[s.commitIndex + 1..s'.commitIndex + 1]
    requires s'.term in h'.lead && h'.lead[s'.term].log == s.log && Committed(n, h', a', s'.term, s'.commitIndex + 1)
    ensures NodeCommitted(n, s', h', a')
  {
    SavedStay(n, s.saved, h, h', a, a', key);
    CommittedEntries(n, h', a', s'.term, s.commitIndex + 1, s'.commitIndex + 1);
  }

  lemma {:induction false} LeadAdvanced(n: int, i: int, s: NodeState, s': NodeState, h: History, h': History,
                                        a: Marks, a': Marks, key: Key)
    requires 0 <= i < n && HistoryOk(n, h') && Extends(h, h') && Advances(a, a', key)
    requires NodeCommitted(n, s, h, a) && s'.role == Leader && s'.log == s.log
    requires -1 <= s.commitIndex < s'.commitIndex < |s.log| && s.log[s'.commitIndex].term == s'.term
    requires |s'.matchIndex| == n && |Matched(n, i, s'.matchIndex, s'.commitIndex)| > n / 2
    requires s'.saved == s.saved + s.log[s.commitIndex + 1..s'.commitIndex + 1]
    requires LeaderOk(i, s', h') && LeaderMarked(n, i, s', h', a')
    ensures NodeCommitted(n, s', h', a')
  {
    MatchCommits(n, i, s', h', a', s'.commitIndex);
    AdvanceCommitted(n, s, s', h, h', a, a', key);
  }

  lemma {:induction false} LeadCommitted(n: int, i: int, s: NodeState, p: Option<Packet>, s': NodeState,
                                         h: History, h': History, a: Marks, a': Marks, key: Key)
    requires 0 <= i < n && HistoryOk(n, h') && Extends(h, h') && Advances(a, a', key)
    requires NodeCommitted(n, s, h, a) && s'.role == Leader
    requires LeaderOk(i, s', h') && LeaderMarked(n, i, s', h', a')
    requires s.commitIndex < s'.commitIndex < |s'.log| && 0 <= s'.commitIndex ==>
               s'.log[s'.commitIndex].term == s'.term
    ensures LeadMove(n, i, s, p, s') ==> NodeCommitted(n, s', h', a')
  {
    if !LeadMove(n, i, s, p, s') {
      return;
    }
    hide NodeCommitted, Extends, Advances, HistoryOk, LeaderMarked;
    if s'.commitIndex == s.commitIndex {
      NodeCommittedExtends(n, s, h, h', a, a', key, s');
    } else {
      LeadAdvanced(n, i, s, s', h, h', a, a', key);
    }
  }

  // ---------------------------------------------------------------- any step

  lemma {:induction false} AccepterCommitted(n: int, c: Cluster, h: History, a: Marks, step: Step)
    requires CommitInv(n, c, h, a) && Enabled(n, c, step)
    requires FreshVote(n, c, step) && FreshAck(n, c, step) && Fifo(n, c, step)
    requires Accepted(Before(c, step), Handling(c, step))
    ensures NodeCommitted(n, Effect(n, c, step).node, NextHistory(n, c, h, step), NextMarks(n, c, a, step))
  {
    var i := Actor(step);
    var s := Before(c, step);
    var p := Handling(c, step).value;
    var s' := Effect(n, c, step).node;
    var h' := NextHistory(n, c, h, step);
    ReadyToMove(n, c, h, a, step);
    EffectMoves(n, c, step);
    AcceptFacts(n, i, s, p, s', h);
    NodeMoves(n, c, h, a, step);
    EffectKept(n, c, h, step);
    PrefixTrans(s'.log, h.lead[s'.term].log, h'.lead[s'.term].log);
    HandledCommitted(n, c, h, a, step);
    AcceptCommitted(n, s, p, s', h, h', a, NextMarks(n, c, a, step), Key(s'.term, i));
  }

  lemma {:induction false} HandledCommitted(n: int, c: Cluster, h: History, a: Marks, step: Step)
    requires CommitInv(n, c, h, a) && Enabled(n, c, step) && Handling(c, step).Some?
    ensures MessageCommitted(n, h, a, Handling(c, step).value.msg)
    ensures NodeCommitted(n, Before(c, step), h, a)
  {
    assert NodeCommitted(n, c.nodes[Actor(step)], h, a);
    if step.Resume? {
      assert c.nodes[Actor(step)].queue[0] in c.nodes[Actor(step)].queue;
    }
  }

  lemma {:induction false} ActorCommitted(n: int, c: Cluster, h: History, a: Marks, step: Step)
    requires CommitInv(n, c, h, a) && Enabled(n, c, step)
    requires FreshVote(n, c, step) && FreshAck(n, c, step) && Fifo(n, c, step) && OwnTermCommit(n, c, step)
    ensures NodeCommitted(n, Effect(n, c, step).node, NextHistory(n, c, h, step), NextMarks(n, c, a, step))
  {
    var i := Actor(step);
    var s := Before(c, step);
    var p := Handling(c, step);
    var s' := Effect(n, c, step).node;
    var h' := NextHistory(n, c, h, step);
    var a' := NextMarks(n, c, a, step);
    assert NodeCommitted(n, c.nodes[i], h, a);
    if Accepted(s, p) {
      AccepterCommitted(n, c, h, a, step);
    } else {
      EffectMoves(n, c, step);
      NodeMoves(n, c, h, a, step);
      EffectKept(n, c, h, step);
      if s'.role != Leader || WinMove(n, s, s') {
        NodeCommittedExtends(n, s, h, h', a, a', Key(s'.term, i), s');
      } else {
        LeadCommitted(n, i, s, p, s', h, h', a, a', Key(s'.term, i));
      }
    }
  }

  lemma {:induction false} SendCommitted(n: int, c: Cluster, h: History, a: Marks, step: Step, snd: Send)
    requires CommitInv(n, c, h, a) && Enabled(n, c, step) && FreshVote(n, c, step) && FreshAck(n, c, step)
    requires snd in Effect(n, c, step).sends
    ensures MessageCommitted(n, NextHistory(n, c, h, step), NextMarks(n, c, a, step), snd.msg)
  {
    if snd.msg.AppendEntries? {
      var i := Actor(step);
      var s := Before(c, step);
      var s' := Effect(n, c, step).node;
      AppendsBound(n, c, step, snd);
      EffectMoves(n, c, step);
      LeaderComesFrom(n, i, s, Handling(c, step), s');
      NodeMoves(n, c, h, a, step);
      EffectKept(n, c, h, step);
      assert NodeCommitted(n, c.nodes[i], h, a);
      BackedExtends(n, h, NextHistory(n, c, h, step), a, NextMarks(n, c, a, step), Key(s'.term, i), s.commitIndex,
                    s.term, s.term);
    }
  }

  lemma {:induction false} MessageStaysCommitted(n: int, c: Cluster, h: History, a: Marks, step: Step, m: Message)
    requires CommitInv(n, c, h, a) && Enabled(n, c, step) && FreshVote(n, c, step) && FreshAck(n, c, step)
    requires MessageCommitted(n, h, a, m)
    ensures MessageCommitted(n, NextHistory(n, c, h, step), NextMarks(n, c, a, step), m)
  {
    NodeMoves(n, c, h, a, step);
    EffectKept(n, c, h, step);
    MessageCommittedExtends(n, h, NextHistory(n, c, h, step), a, NextMarks(n, c, a, step),
                            Key(Effect(n, c, step).node.term, Actor(step)), m);
  }

  lemma {:induction false} NodesCommitted(n: int, c: Cluster, h: History, a: Marks, step: Step, j: int)
    requires CommitInv(n, c, h, a) && Enabled(n, c, step) && 0 <= j < n
    requires FreshVote(n, c, step) && FreshAck(n, c, step) && Fifo(n, c, step) && OwnTermCommit(n, c, step)
    ensures NodeCommitted(n, Apply(n, c, step).nodes[j], NextHistory(n, c, h, step), NextMarks(n, c, a, step))
  {
    if j == Actor(step) {
      ActorCommitted(n, c, h, a, step);
    } else {
      NodeMoves(n, c, h, a, step);
      EffectKept(n, c, h, step);
      NodeCommittedExtends(n, c.nodes[j], h, NextHistory(n, c, h, step), a, NextMarks(n, c, a, step),
                           Key(Effect(n, c, step).node.term, Actor(step)), c.nodes[j]);
    }
  }

  lemma {:induction false} QueueCommitted(n: int, c: Cluster, h: History, a: Marks, step: Step, j: int, p: Packet)
    requires CommitInv(n, c, h, a) && Enabled(n, c, step) && 0 <= j < n
    requires FreshVote(n, c, step) && FreshAck(n, c, step)
    requires p in Apply(n, c, step).nodes[j].queue
    ensures MessageCommitted(n, NextHistory(n, c, h, step), NextMarks(n, c, a, step), p.msg)
  {
    QueueAfter(n, c, step);
    assert MessageCommitted(n, h, a, p.msg);
    MessageStaysCommitted(n, c, h, a, step, p.msg);
  }

  lemma {:induction false} NetCommitted(n: int, c: Cluster, h: History, a: Marks, step: Step, p: Packet)
    requires CommitInv(n, c, h, a) && Enabled(n, c, step) && FreshVote(n, c, step) && FreshAck(n, c, step)
    requires p in Apply(n, c, step).net
    ensures MessageCommitted(n, NextHistory(n, c, h, step), NextMarks(n, c, a, step), p.msg)
  {
    if p in c.net {
      MessageStaysCommitted(n, c, h, a, step, p.msg);
    } else {
      Stamped(Actor(step), c.nextId, Effect(n, c, step).sends, p);
      SendCommitted(n, c, h, a, step, Send(p.dst, p.msg));
    }
  }

  lemma {:induction false} CommitStepKept(n: int, c: Cluster, h: History, a: Marks, step: Step)
    requires CommitInv(n, c, h, a) && Enabled(n, c, step)
    requires FreshVote(n, c, step) && FreshAck(n, c, step) && Fifo(n, c, step) && OwnTermCommit(n, c, step)
    ensures CommitInv(n, Apply(n, c, step), NextHistory(n, c, h, step), NextMarks(n, c, a, step))
  {
    var c' := Apply(n, c, step);
    var h' := NextHistory(n, c, h, step);
    var a' := NextMarks(n, c, a, step);
    AckStepKept(n, c, h, a, step);
    forall j | 0 <= j < n ensures NodeCommitted(n, c'.nodes[j], h', a') {
      NodesCommitted(n, c, h, a, step, j);
    }
    forall j, p | 0 <= j < n && p in c'.nodes[j].queue ensures MessageCommitted(n, h', a', p.msg) {
      QueueCommitted(n, c, h, a, step, j, p);
    }
    forall p | p in c'.net ensures MessageCommitted(n, h', a', p.msg) {
      NetCommitted(n, c, h, a, step, p);
    }
  }

  lemma {:induction false} CommitStarts(n: int, r: Run, hs: seq<History>, ms: seq<Marks>)
    requires Chronicle(n, r, hs, ms) && FreshVotes(n, r) && FreshAcks(n, r) && FifoRun(n, r)
    ensures CommitInv(n, r.states[0], hs[0], ms[0])
  {
    AckHolds(n, r, hs, ms, 0);
    hide AckInv;
  }

  lemma {:induction false} CommitHolds(n: int, r: Run, hs: seq<History>, ms: seq<Marks>, k: nat)
    requires Chronicle(n, r, hs, ms)
    requires IsRun(n, r) && FreshVotes(n, r) && FreshAcks(n, r) && FifoRun(n, r) && OwnTermCommits(n, r)
    requires k < |r.states|
    ensures CommitInv(n, r.states[k], hs[k], ms[k])
  {
    hide CommitInv;
    if k > 0 {
      assert RecordsStep(n, r, hs, k - 1) && MarksStep(n, r, ms, k - 1);
      CommitHolds(n, r, hs, ms, k - 1);
      CommitStepKept(n, r.states[k - 1], hs[k - 1], ms[k - 1], r.steps[k - 1]);
    } else {
      CommitStarts(n, r, hs, ms);
    }
  }
}
