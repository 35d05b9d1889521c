/** Where the appends on their way come from, in any run whatever. */
module Appends {
  import opened Types
  import opened Clusters
  import opened History
  import opened Sends
  import opened Terms
  import opened Bounds

  /** The message carries all of the log after prevLogIndex, and the term of the entry there. */
  ghost predicate SuffixOf(log: seq<Entry>, m: Message) {
    && m.AppendEntries?
    && -1 <= m.prevLogIndex < |log|
    && m.entries == log[m.prevLogIndex + 1..]
    && (m.prevLogIndex >= 0 ==> m.prevLogTerm == log[m.prevLogIndex].term)
  }

  /** Packet p enters the network in state m. */
  ghost predicate EntersAt(r: Run, m: nat, p: Packet) {
    0 < m < |r.states| && p in r.states[m].net && p !in r.states[m - 1].net
  }

  /** In state m the leader of its term sends append p: the rest of its log, or, beyond its log, nothing. */
  ghost predicate SentFrom(r: Run, m: nat, p: Packet) {
    && p.msg.AppendEntries? && EntersAt(r, m, p) && LeadsAt(r, m, p.src, p.msg.term)
    && var log := NodeAt(r, m, p.src).log;
    && (SuffixOf(log, p.msg) || (BeyondLog(p.msg) && p.msg.prevLogIndex >= |log|))
  }

  ghost predicate InFlight(c: Cluster, p: Packet) {
    p in c.net || exists i :: 0 <= i < |c.nodes| && p in c.nodes[i].queue
  }

  lemma {:induction false} HandledInFlight(n: int, c: Cluster, step: Step)
    requires Enabled(n, c, step) && Handling(c, step).Some?
    ensures InFlight(c, Handling(c, step).value)
  {
    if step.Resume? {
      assert c.nodes[Actor(step)].queue[0] in c.nodes[Actor(step)].queue;
    }
  }

  lemma {:induction false} InFlightFrom(n: int, c: Cluster, step: Step, p: Packet)
    requires Enabled(n, c, step) && InFlight(Apply(n, c, step), p)
    ensures InFlight(c, p) || p in Stamp(Actor(step), c.nextId, Effect(n, c, step).sends)
  {
    if p !in Apply(n, c, step).net {
      var j :| 0 <= j < n && p in Apply(n, c, step).nodes[j].queue;
      if j == Actor(step) {
        QueueFrom(n, c, step, p);
        if p !in c.nodes[j].queue {
          HandledInFlight(n, c, step);
        }
      }
    }
  }

  lemma {:induction false} IdsBelow(n: int, r: Run, k: nat, p: Packet)
    requires IsRun(n, r) && k < |r.states| && p in r.states[k].net
    ensures p.id < r.states[k].nextId
  {
    if k > 0 {
      assert StepsTo(n, r, k - 1);
      var (c, step) := (r.states[k - 1], r.steps[k - 1]);
      if p in c.net {
        IdsBelow(n, r, k - 1, p);
      } else {
        Stamped(Actor(step), c.nextId, Effect(n, c, step).sends, p);
      }
    }
  }

  lemma {:induction false} SentAppendIs(n: int, i: int, c: int, s: NodeState, snd: Send)
    requires SentAppend(n, i, c, s, snd)
    ensures snd.msg.term == s.term
    ensures SuffixOf(s.log, snd.msg) || (BeyondLog(snd.msg) && snd.msg.prevLogIndex >= |s.log|)
  {
  }

  lemma {:induction false} StepSendsAppend(n: int, c: Cluster, step: Step, snd: Send)
    requires TermsInv(n, c) && Enabled(n, c, step)
    requires snd in Effect(n, c, step).sends && snd.msg.AppendEntries?
    ensures SentAppend(n, Actor(step), Before(c, step).commitIndex, Effect(n, c, step).node, snd)
  {
    assert NodeClimbs(n, Actor(step), c.nodes[Actor(step)]);
    if Handling(c, step).Some? {
      TermsReady(n, c, step);
    }
    EffectSends(n, c, step);
  }

  lemma {:induction false} NewlySent(n: int, r: Run, k: nat, p: Packet)
    requires IsRun(n, r) && k < |r.steps| && StepsTo(n, r, k) && p.msg.AppendEntries?
    requires p in Stamp(Actor(r.steps[k]), r.states[k].nextId, Effect(n, r.states[k], r.steps[k]).sends)
    ensures SentFrom(r, k + 1, p)
  {
    var (c, step) := (r.states[k], r.steps[k]);
    TermsHold(n, r, k);
    Stamped(Actor(step), c.nextId, Effect(n, c, step).sends, p);
    if p in c.net {
      IdsBelow(n, r, k, p);
    }
    StepSendsAppend(n, c, step, Send(p.dst, p.msg));
    SentAppendIs(n, p.src, Before(c, step).commitIndex, Effect(n, c, step).node, Send(p.dst, p.msg));
    assert NodeAt(r, k + 1, p.src) == Effect(n, c, step).node;
    hide Effect;
  }

  // ---------------------------------------------------------------- theorems

  /**
    Every append on its way, in any run, was sent by a leader of its term and is the whole rest of the log that
    this leader had at that moment; or it starts beyond that log and is empty.
   */
  lemma {:induction false} AppendIsSuffix(n: int, r: Run, k: nat, p: Packet) returns (m: nat)
    requires IsRun(n, r) && k < |r.states| && InFlight(r.states[k], p) && p.msg.AppendEntries?
    ensures m <= k && SentFrom(r, m, p)
  {
    assert k > 0;
    assert StepsTo(n, r, k - 1);
    InFlightFrom(n, r.states[k - 1], r.steps[k - 1], p);
    if InFlight(r.states[k - 1], p) {
      m := AppendIsSuffix(n, r, k - 1, p);
    } else {
      NewlySent(n, r, k - 1, p);
      m := k;
    }
  }

  /** With fresh acknowledgements no append starts beyond its sender's log. */
  lemma {:induction false} AppendIsTrueSuffix(n: int, r: Run, k: nat, p: Packet) returns (m: nat)
    requires IsRun(n, r) && FreshAcks(n, r)
    requires k < |r.states| && InFlight(r.states[k], p) && p.msg.AppendEntries?
    ensures m <= k && SentFrom(r, m, p) && SuffixOf(NodeAt(r, m, p.src).log, p.msg)
  {
    m := AppendIsSuffix(n, r, k, p);
    BoundsHold(n, r, k);
    if p !in r.states[k].net {
      var i :| 0 <= i < n && p in r.states[k].nodes[i].queue;
      assert PacketBound(r.states[k].nodes, p);
    }
  }
}
