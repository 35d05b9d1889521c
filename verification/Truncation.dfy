/**
  With FIFO channels and fresh votes: for each term and follower, the length of the log it last accepted in that
  term. A later append of the term is never shorter, so dropping all after prevLogIndex loses nothing.
 */
module Truncation {
  import opened Types
  import opened NodeSpec
  import opened Clusters
  import opened History
  import opened BaseRuns
  import opened Terms
  import opened Moves
  import opened Sends
  import opened Appends
  import opened MarkStep
  import opened Order

  type Lengths = map<Key, int>

  ghost predicate TrueAppend(m: Message) {
    m.AppendEntries? && !BeyondLog(m)
  }

  ghost predicate NoShorter(m: Message, m': Message) {
    TrueAppend(m) && TrueAppend(m') && m.term == m'.term ==> Total(m) <= Total(m')
  }

  ghost predicate LengthOk(h: History, a: Lengths, key: Key)
    requires key in a
  {
    && key.term in h.lead && h.lead[key.term].leader != key.node
    && 0 <= a[key] <= |h.lead[key.term].log|
  }

  /** Node i has had no length of a later term, and in its own it holds that much of the leader's log. */
  ghost predicate HoldsLength(i: int, s: NodeState, h: History, a: Lengths) {
    && (forall key | key in a && key.node == i :: key.term <= s.term)
    && (Key(s.term, i) in a ==> LengthOk(h, a, Key(s.term, i)) && s.log == h.lead[s.term].log[..a[Key(s.term, i)]])
  }

  /** An append to node i reaches at least as far as the length it has accepted. */
  ghost predicate ReachesLength(a: Lengths, i: int, m: Message) {
    TrueAppend(m) && Key(m.term, i) in a ==> a[Key(m.term, i)] <= Total(m)
  }

  ghost predicate LengthsInv(n: int, c: Cluster, h: History, a: Lengths) {
    && BaseInv(n, c, h) && TermsInv(n, c) && Lined(n, c)
    && (forall p, q {:trigger Precedes(c, p, q)} | Precedes(c, p, q) :: NoShorter(p.msg, q.msg))
    && (forall key {:trigger LengthOk(h, a, key)} | key in a :: LengthOk(h, a, key))
    && (forall i {:trigger HoldsLength(i, c.nodes[i], h, a)} | 0 <= i < n :: HoldsLength(i, c.nodes[i], h, a))
    && (forall p | p in c.net :: ReachesLength(a, p.dst, p.msg))
    && (forall i, p | 0 <= i < n && p in c.nodes[i].queue :: ReachesLength(a, i, p.msg))
  }

  function NextLengths(c: Cluster, a: Lengths, step: Step): Lengths
    requires 0 <= Actor(step) < |c.nodes|
  {
    var p := Handling(c, step);
    if Accepted(Before(c, step), p) then a[Key(p.value.msg.term, Actor(step)) := Total(p.value.msg)] else a
  }

  // ---------------------------------------------------------------- the acting node

  lemma {:induction false} LengthExtends(h: History, h': History, a: Lengths, a': Lengths, key: Key)
    requires key in a && LengthOk(h, a, key) && Extends(h, h') && key in a' && a'[key] == a[key]
    ensures LengthOk(h', a', key) && h'.lead[key.term].log[..a[key]] == h.lead[key.term].log[..a[key]]
  {
  }

  lemma {:induction false} AcceptHolds(n: int, c: Cluster, h: History, a: Lengths, step: Step)
    requires LengthsInv(n, c, h, a) && Enabled(n, c, step) && Accepted(Before(c, step), Handling(c, step))
    ensures var (p, s') := (Handling(c, step).value, Effect(n, c, step).node);
            && p.msg.term in h.lead && h.lead[p.msg.term].leader == p.src && p.src != Actor(step)
            && s'.log == h.lead[p.msg.term].log[..Total(p.msg)] && 0 <= Total(p.msg) <= |h.lead[p.msg.term].log|
            && s'.term == p.msg.term && Before(c, step).term <= s'.term && TrueAppend(p.msg)
  {
    var p := Handling(c, step).value;
    EffectMoves(n, c, step);
    BaseReady(n, c, h, step);
    AcceptFacts(n, Actor(step), Before(c, step), p, Effect(n, c, step).node, h);
    hide Effect;
  }

  lemma {:induction false} QuietHolds(n: int, i: int, s: NodeState, p: Option<Packet>, s': NodeState, h: History,
                                      h': History, a: Lengths)
    requires Moved(n, i, s, p, s') && !Accepted(s, p) && HoldsLength(i, s, h, a)
    requires Extends(h, h') && LeaderOk(i, s', h')
    ensures HoldsLength(i, s', h', a)
  {
    var key := Key(s'.term, i);
    if key in a {
      LengthExtends(h, h', a, a, key);
    }
  }

  lemma {:induction false} AcceptedHolds(i: int, s: NodeState, p: Packet, s': NodeState, h: History, h': History,
                                         a: Lengths)
    requires HoldsLength(i, s, h, a) && Extends(h, h') && s.term <= s'.term == p.msg.term && p.src != i
    requires p.msg.AppendEntries? && s'.term in h.lead && h.lead[s'.term].leader == p.src
    requires 0 <= Total(p.msg) <= |h.lead[s'.term].log| && s'.log == h.lead[s'.term].log[..Total(p.msg)]
    ensures HoldsLength(i, s', h', a[Key(s'.term, i) := Total(p.msg)])
  {
  }

  lemma {:induction false} ActorHolds(n: int, c: Cluster, h: History, a: Lengths, step: Step)
    requires LengthsInv(n, c, h, a) && Enabled(n, c, step) && FreshVote(n, c, step)
    ensures var h' := NextHistory(n, c, h, step);
            HoldsLength(Actor(step), Effect(n, c, step).node, h', NextLengths(c, a, step))
  {
    var (i, s, s', p) := (Actor(step), Before(c, step), Effect(n, c, step).node, Handling(c, step));
    var h' := NextHistory(n, c, h, step);
    assert HoldsLength(i, c.nodes[i], h, a);
    EffectKept(n, c, h, step);
    hide Effect, HoldsLength, Observe;
    if Accepted(s, p) {
      AcceptHolds(n, c, h, a, step);
      assert HoldsLength(i, s, h, a) by { SameHolds(i, c.nodes[i], s, h, a); }
      AcceptedHolds(i, s, p.value, s', h, h', a);
    } else {
      EffectMoves(n, c, step);
      assert HoldsLength(i, s, h, a) by { SameHolds(i, c.nodes[i], s, h, a); }
      QuietHolds(n, i, s, p, s', h, h', a);
    }
  }

  lemma {:induction false} SameHolds(i: int, s: NodeState, s': NodeState, h: History, a: Lengths)
    requires HoldsLength(i, s, h, a) && s'.term == s.term && s'.log == s.log
    ensures HoldsLength(i, s', h, a)
  {
  }

  lemma {:induction false} LengthsStayOk(n: int, c: Cluster, h: History, a: Lengths, step: Step, key: Key)
    requires LengthsInv(n, c, h, a) && Enabled(n, c, step) && FreshVote(n, c, step)
    requires key in NextLengths(c, a, step)
    ensures LengthOk(NextHistory(n, c, h, step), NextLengths(c, a, step), key)
  {
    EffectKept(n, c, h, step);
    if key in a && NextLengths(c, a, step)[key] == a[key] {
      assert LengthOk(h, a, key);
    } else {
      AcceptHolds(n, c, h, a, step);
    }
    hide Effect;
  }

  // ---------------------------------------------------------------- messages

  lemma {:induction false} SentReaches(n: int, i: int, c: int, s: NodeState, snd: Send, h: History)
    requires SentAppend(n, i, c, s, snd) && LeaderOk(i, s, h) && TrueAppend(snd.msg)
    ensures snd.msg.term in h.lead && Total(snd.msg) == |h.lead[snd.msg.term].log|
  {
    SentAppendIs(n, i, c, s, snd);
    var m := snd.msg;
    if m.prevLogIndex == -1 {
      assert m.entries == s.log;
    }
  }

  /** A new append reaches to the end of its sender's log, which is the record of its term. */
  lemma {:induction false} NewReaches(n: int, c: Cluster, h: History, step: Step, q: Packet)
    requires BaseInv(n, c, h) && TermsInv(n, c) && Enabled(n, c, step) && FreshVote(n, c, step)
    requires q in Stamp(Actor(step), c.nextId, Effect(n, c, step).sends) && TrueAppend(q.msg)
    ensures var h' := NextHistory(n, c, h, step);
            q.msg.term in h'.lead && Total(q.msg) == |h'.lead[q.msg.term].log|
  {
    var (s, s', snd) := (Before(c, step), Effect(n, c, step).node, Send(q.dst, q.msg));
    Stamped(Actor(step), c.nextId, Effect(n, c, step).sends, q);
    StepSendsAppend(n, c, step, snd);
    EffectKept(n, c, h, step);
    assert LeaderOk(Actor(step), s', NextHistory(n, c, h, step));
    hide Effect, Observe, NodeOk, LeaderOk, SentAppend, TrueAppend, TermsInv, BaseInv;
    SentReaches(n, Actor(step), s.commitIndex, s', snd, NextHistory(n, c, h, step));
  }

  /** What is still on its way to a node that accepts an append is not shorter. */
  lemma {:induction false} OthersReach(n: int, c: Cluster, h: History, a: Lengths, step: Step, q: Packet)
    requires LengthsInv(n, c, h, a) && Enabled(n, c, step) && Fifo(n, c, step)
    requires q in Taken(c, step) && q.dst == Actor(step)
    ensures Accepted(Before(c, step), Handling(c, step)) ==> NoShorter(Handling(c, step).value.msg, q.msg)
  {
    if Accepted(Before(c, step), Handling(c, step)) {
      TermsReady(n, c, step);
      AcceptHolds(n, c, h, a, step);
      assert MessageOk(n, h, q.src, q.dst, q.msg);
      if q.src == Handling(c, step).value.src {
        HandledPrecedes(n, c, step, q);
      }
    }
  }

  lemma {:induction false} NetReaches(n: int, c: Cluster, h: History, a: Lengths, step: Step, q: Packet)
    requires LengthsInv(n, c, h, a) && Enabled(n, c, step) && FreshVote(n, c, step) && Fifo(n, c, step)
    requires q in Apply(n, c, step).net
    ensures ReachesLength(NextLengths(c, a, step), q.dst, q.msg)
  {
    var a' := NextLengths(c, a, step);
    if TrueAppend(q.msg) && Key(q.msg.term, q.dst) in a' {
      if q !in Taken(c, step) {
        NewReaches(n, c, h, step, q);
        LengthsStayOk(n, c, h, a, step, Key(q.msg.term, q.dst));
      } else if Accepted(Before(c, step), Handling(c, step)) && q.dst == Actor(step)
                && q.msg.term == Handling(c, step).value.msg.term {
        AcceptHolds(n, c, h, a, step);
        OthersReach(n, c, h, a, step, q);
      }
    }
    hide Effect;
  }

  lemma {:induction false} QueueReaches(n: int, c: Cluster, h: History, a: Lengths, step: Step, i: int, q: Packet)
    requires LengthsInv(n, c, h, a) && Enabled(n, c, step)
    requires 0 <= i < n && q in Apply(n, c, step).nodes[i].queue
    ensures ReachesLength(NextLengths(c, a, step), i, q.msg)
  {
    if i == Actor(step) {
      if Accepted(Before(c, step), Handling(c, step)) {
        AcceptedQueueEmpty(n, c, step);
      } else {
        QueueAfter(n, c, step);
        if Handling(c, step) == Some(q) {
          TermsReady(n, c, step);
        }
      }
    }
    hide Effect;
  }

  lemma {:induction false} OrderStays(n: int, c: Cluster, h: History, a: Lengths, step: Step, p: Packet, q: Packet)
    requires LengthsInv(n, c, h, a) && Enabled(n, c, step) && FreshVote(n, c, step) && Fifo(n, c, step)
    requires Precedes(Apply(n, c, step), p, q)
    ensures NoShorter(p.msg, q.msg)
  {
    if Handling(c, step).Some? {
      TermsReady(n, c, step);
    }
    PrecedesBefore(n, c, step, p, q);
    if !Precedes(c, p, q) && TrueAppend(p.msg) && TrueAppend(q.msg) && p.msg.term == q.msg.term {
      NewReaches(n, c, h, step, q);
      if p in Stamp(Actor(step), c.nextId, Effect(n, c, step).sends) {
        NewReaches(n, c, h, step, p);
      } else {
        EffectKept(n, c, h, step);
        assert p !in c.net ==> NodeOk(n, q.dst, c.nodes[q.dst], h);
        assert MessageOk(n, h, p.src, q.dst, p.msg);
      }
    }
    hide Effect;
  }

  // ---------------------------------------------------------------- whole steps and runs

  lemma {:induction false} LengthsStepKept(n: int, c: Cluster, h: History, a: Lengths, step: Step)
    requires LengthsInv(n, c, h, a) && Enabled(n, c, step) && FreshVote(n, c, step) && Fifo(n, c, step)
    ensures LengthsInv(n, Apply(n, c, step), NextHistory(n, c, h, step), NextLengths(c, a, step))
  {
    var (c', h', a') := (Apply(n, c, step), NextHistory(n, c, h, step), NextLengths(c, a, step));
    BaseStepKept(n, c, h, step);
    TermsStepKept(n, c, step);
    LinedKept(n, c, step);
    forall p, q | Precedes(c', p, q) ensures NoShorter(p.msg, q.msg) {
      OrderStays(n, c, h, a, step, p, q);
    }
    forall key | key in a' ensures LengthOk(h', a', key) {
      LengthsStayOk(n, c, h, a, step, key);
    }
    forall i | 0 <= i < n ensures HoldsLength(i, c'.nodes[i], h', a') {
      if i == Actor(step) {
        ActorHolds(n, c, h, a, step);
      } else {
        OtherHolds(n, c, h, a, step, i);
      }
    }
    forall p | p in c'.net ensures ReachesLength(a', p.dst, p.msg) {
      NetReaches(n, c, h, a, step, p);
    }
    forall i, p | 0 <= i < n && p in c'.nodes[i].queue ensures ReachesLength(a', i, p.msg) {
      QueueReaches(n, c, h, a, step, i, p);
    }
  }

  lemma {:induction false} OtherHolds(n: int, c: Cluster, h: History, a: Lengths, step: Step, i: int)
    requires LengthsInv(n, c, h, a) && Enabled(n, c, step) && FreshVote(n, c, step) && 0 <= i < n && i != Actor(step)
    ensures HoldsLength(i, c.nodes[i], NextHistory(n, c, h, step), NextLengths(c, a, step))
  {
    EffectKept(n, c, h, step);
    assert HoldsLength(i, c.nodes[i], h, a);
    hide LengthsInv, Effect, Enabled, Accepted, BaseInv;
    LengthsElsewhere(i, c.nodes[i], h, NextHistory(n, c, h, step), a, NextLengths(c, a, step));
  }

  lemma {:induction false} LengthsElsewhere(i: int, s: NodeState, h: History, h': History, a: Lengths, a': Lengths)
    requires HoldsLength(i, s, h, a) && Extends(h, h')
    requires forall key: Key | key.node == i :: (key in a <==> key in a') && (key in a ==> a'[key] == a[key])
    ensures HoldsLength(i, s, h', a')
  {
    var key := Key(s.term, i);
    if key in a {
      LengthExtends(h, h', a, a', key);
    }
  }

  /** The lengths for each state of the run. */
  ghost predicate LengthsRun(n: int, r: Run, ls: seq<Lengths>) {
    && IsRun(n, r) && |ls| == |r.states| && ls[0] == map[]
    && forall k {:trigger LengthsStep(r, ls, k)} | 0 <= k < |r.steps| :: LengthsStep(r, ls, k)
  }

  ghost predicate LengthsStep(r: Run, ls: seq<Lengths>, k: int)
    requires 0 <= k < |r.steps| && |r.states| == |r.steps| + 1 && k + 1 < |ls|
  {
    0 <= Actor(r.steps[k]) < |r.states[k].nodes| && ls[k + 1] == NextLengths(r.states[k], ls[k], r.steps[k])
  }

  lemma {:induction false} WriteLengths(n: int, r: Run) returns (ls: seq<Lengths>)
    requires IsRun(n, r)
    ensures LengthsRun(n, r, ls)
  {
    ls := [map[]];
    var k := 0;
    while k < |r.steps|
      invariant 0 <= k <= |r.steps| && |ls| == k + 1 && ls[0] == map[]
      invariant forall j {:trigger LengthsStep(r, ls, j)} | 0 <= j < k :: LengthsStep(r, ls, j)
    {
      assert StepsTo(n, r, k);
      hide StepsTo, NextLengths;
      var longer := ls + [NextLengths(r.states[k], ls[k], r.steps[k])];
      forall j | 0 <= j <= k ensures LengthsStep(r, longer, j) {
        assert j < k ==> LengthsStep(r, ls, j);
      }
      ls := longer;
      k := k + 1;
    }
  }

  lemma {:induction false} LengthsStart(n: int, r: Run, hs: seq<History>, ls: seq<Lengths>)
    requires Records(n, r, hs) && LengthsRun(n, r, ls) && FreshVotes(n, r)
    ensures LengthsInv(n, r.states[0], hs[0], ls[0])
  {
    BaseHolds(n, r, hs, 0);
    TermsHold(n, r, 0);
    hide BaseInv, TermsInv;
  }

  lemma {:induction false} LengthsHold(n: int, r: Run, hs: seq<History>, ls: seq<Lengths>, k: nat)
    requires Records(n, r, hs) && LengthsRun(n, r, ls)
    requires FreshVotes(n, r) && FifoRun(n, r) && k < |r.states|
    ensures LengthsInv(n, r.states[k], hs[k], ls[k])
  {
    hide LengthsInv;
    if k == 0 {
      LengthsStart(n, r, hs, ls);
    } else {
      LengthsHold(n, r, hs, ls, k - 1);
      assert RecordsStep(n, r, hs, k - 1) && LengthsStep(r, ls, k - 1);
      LengthsStepKept(n, r.states[k - 1], hs[k - 1], ls[k - 1], r.steps[k - 1]);
    }
  }

  // ---------------------------------------------------------------- theorem

  lemma {:induction false} LengthsGrow(n: int, r: Run, hs: seq<History>, ls: seq<Lengths>, j: nat, k: nat, key: Key)
    requires Records(n, r, hs) && LengthsRun(n, r, ls)
    requires FreshVotes(n, r) && FifoRun(n, r) && j <= k < |r.states| && key in ls[j]
    ensures key in ls[k] && ls[j][key] <= ls[k][key]
  {
    if j < k {
      LengthsGrow(n, r, hs, ls, j, k - 1, key);
      LengthsHold(n, r, hs, ls, k - 1);
      assert LengthsStep(r, ls, k - 1) && StepsTo(n, r, k - 1);
      LengthGrows(n, r.states[k - 1], hs[k - 1], ls[k - 1], r.steps[k - 1], key);
    }
  }

  lemma {:induction false} LengthGrows(n: int, c: Cluster, h: History, a: Lengths, step: Step, key: Key)
    requires LengthsInv(n, c, h, a) && Enabled(n, c, step) && key in a
    ensures key in NextLengths(c, a, step) && a[key] <= NextLengths(c, a, step)[key]
  {
    if Accepted(Before(c, step), Handling(c, step)) {
      AcceptHolds(n, c, h, a, step);
      TermsReady(n, c, step);
      if step.Resume? {
        assert c.nodes[step.i].queue[0] in c.nodes[step.i].queue;
      }
    }
  }

  /** In step k node i, as a follower, handles append p. */
  ghost predicate HandlesAt(n: int, r: Run, k: nat, i: int, p: Packet)
    requires IsRun(n, r)
  {
    && k < |r.steps| && Actor(r.steps[k]) == i && 0 <= i < n
    && StepsTo(n, r, k)
    && Handling(r.states[k], r.steps[k]) == Some(p)
    && Before(r.states[k], r.steps[k]).role == Follower
    && p.msg.AppendEntries?
  }

  /** In step k node i accepts append p. */
  ghost predicate AcceptsAt(n: int, r: Run, k: nat, i: int, p: Packet)
    requires IsRun(n, r)
  {
    HandlesAt(n, r, k, i, p) && Accepted(Before(r.states[k], r.steps[k]), Some(p))
  }

  lemma {:induction false} AcceptedLength(n: int, r: Run, hs: seq<History>, ls: seq<Lengths>, k: nat, i: int, p: Packet)
    requires Records(n, r, hs) && LengthsRun(n, r, ls) && FreshVotes(n, r) && FifoRun(n, r) && AcceptsAt(n, r, k, i, p)
    ensures var (t, key) := (p.msg.term, Key(p.msg.term, i));
            && key in ls[k + 1] && t in hs[k].lead && 0 <= ls[k + 1][key] <= |hs[k].lead[t].log|
            && NodeAt(r, k + 1, i).log == hs[k].lead[t].log[..ls[k + 1][key]]
  {
    LengthsHold(n, r, hs, ls, k);
    AcceptHolds(n, r.states[k], hs[k], ls[k], r.steps[k]);
    assert LengthsStep(r, ls, k) && NodeAt(r, k + 1, i) == Effect(n, r.states[k], r.steps[k]).node;
    hide Effect, LengthsInv;
  }

  /**
    Truncation is harmless: while a follower stays in the term of an append it has accepted, its log never loses
    anything of what that append gave it, although each further append first drops all after prevLogIndex.
   */
  lemma {:induction false} TruncationHarmless(n: int, r: Run, j: nat, k: nat, i: int, p: Packet)
    requires IsRun(n, r) && FreshVotes(n, r) && FifoRun(n, r)
    requires AcceptsAt(n, r, j, i, p) && j < k < |r.states| && i < |r.states[k].nodes|
    requires NodeAt(r, k, i).term == p.msg.term
    ensures NodeAt(r, j + 1, i).log <= NodeAt(r, k, i).log
  {
    var hs := WriteHistory(n, r);
    var ls := WriteLengths(n, r);
    var key := Key(p.msg.term, i);
    AcceptedLength(n, r, hs, ls, j, i, p);
    LengthsGrow(n, r, hs, ls, j + 1, k, key);
    LengthsHold(n, r, hs, ls, k);
    HistoryExtends(n, r, hs, j, k);
    assert HoldsLength(i, r.states[k].nodes[i], hs[k], ls[k]);
    hide LengthsInv, AcceptsAt, Records;
  }
}
