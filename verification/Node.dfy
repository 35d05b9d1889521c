/**
  The node and its cycles as they are run: fields and arrays updated in place, one method per handler.
  Each method is proved against the function of NodeSpec that the cluster proofs are about.
  Class Cycle stands for the source's base class and its three subclasses; it acts by the role of its node,
  which stays the same while a cycle lives.
 */
module Nodes {
  import opened Types
  import opened DriverSpec
  import opened Receivers
  import opened Sends
  import S = NodeSpec

  /** Saving and answering one more entry. */
  lemma {:induction false} OneMore(saved: seq<Entry>, replied: seq<int>, log: seq<Entry>, a: int, b: int)
    requires 0 <= a <= b < |log|
    ensures saved + log[a..b] + [log[b]] == saved + log[a..b + 1]
    ensures replied + S.Clients(log[a..b]) + [log[b].clientId] == replied + S.Clients(log[a..b + 1])
  {
  }

  /** One test of the commit loop. */
  lemma {:induction false} CommitNext(n: int, me: int, matchIndex: seq<int>, c: int)
    requires n >= 2 && 0 <= me < n && |matchIndex| == n
    ensures c <= S.CommitTarget(n, me, matchIndex, c)
    ensures var target := S.CommitTarget(n, me, matchIndex, c);
            if |S.Matched(n, me, matchIndex, c + 1)| > n / 2
            then target == S.CommitTarget(n, me, matchIndex, c + 1) && c + 1 <= target
            else target == c
  {
    CommitTargetReached(n, me, matchIndex, c + 1);
  }

  class Node {
    const n: int
    const me: int
    const inbox: Receiver
    const matchIndex: array<int>
    const nextIndex: array<int>
    var role: Role
    var term: int
    var votedFor: Option<int>
    var log: seq<Entry>
    var commitIndex: int
    var crashed: bool
    /** What the node has written to its commit file, answered to clients and sent to other nodes. */
    var saved: seq<Entry>
    var replied: seq<int>
    var outbox: seq<Send>

    ghost predicate Valid() {
      n >= 2 && 0 <= me < n && matchIndex.Length == n && nextIndex.Length == n && matchIndex != nextIndex
    }

    /** The abstract value of the node, given the fields of its cycle. */
    ghost function Core(granted: seq<bool>, voteCount: int): NodeState
      reads this, inbox, matchIndex, nextIndex
    {
      NodeState(role, term, votedFor, log, commitIndex, matchIndex[..], nextIndex[..], crashed,
                Packets(inbox.reinjected), granted, voteCount, saved, replied)
    }

    constructor (n: int, me: int, feed: seq<Event>)
      requires n >= 2 && 0 <= me < n
      ensures Valid() && this.n == n && this.me == me
      ensures fresh(inbox) && fresh(matchIndex) && fresh(nextIndex)
      ensures Core(seq(n, _ => false), 0) == S.InitialNode(n)
      ensures inbox.reinjected == [] && inbox.network == feed && outbox == []
    {
      this.n, this.me := n, me;
      inbox := new Receiver(feed);
      matchIndex := new int[n](_ => -1);
      nextIndex := new int[n](_ => 0);
      role, term, votedFor, log, commitIndex, crashed := Follower, 0, None, [], -1, false;
      saved, replied, outbox := [], [], [];
      new;
      assert matchIndex[..] == seq(n, _ => -1);
      assert nextIndex[..] == seq(n, _ => 0);
    }

    method SaveCommit(e: Entry)
      modifies this`saved
      ensures saved == old(saved) + [e]
    {
      saved := saved + [e];
    }

    method SendRpc(dst: int, msg: Message)
      modifies this`outbox
      ensures outbox == old(outbox) + [Send(dst, msg)]
    {
      outbox := outbox + [Send(dst, msg)];
    }

    method InitLeader()
      requires Valid()
      modifies matchIndex, nextIndex
      ensures forall f | 0 <= f < n :: matchIndex[f] == -1 && nextIndex[f] == |log|
    {
      for i := 0 to n
        invariant forall k | 0 <= k < i :: matchIndex[k] == -1
      {
        matchIndex[i] := -1;
      }
      for i := 0 to n
        invariant forall k | 0 <= k < n :: matchIndex[k] == -1
        invariant forall k | 0 <= k < i :: nextIndex[k] == |log|
      {
        nextIndex[i] := |log|;
      }
    }

    /** The abstract value of the node between two cycles. */
    ghost function Idle(): NodeState
      reads this, inbox, matchIndex, nextIndex
    {
      Still(Core(seq(if n >= 0 then n else 0, _ => false), 0))
    }

    /** post_cycle, and the state the cycle asks for. */
    method ChangeState(cycle: Cycle, hasTimedOut: bool)
      requires cycle.node == this && cycle.Valid() && (hasTimedOut ==> cycle.nextState.None?)
      modifies cycle`nextState, this`role, matchIndex, nextIndex
      ensures Idle() == S.FreshCycle(n, old(cycle.Turns(true, hasTimedOut)))
    {
      cycle.PostCycle(hasTimedOut);
      if cycle.nextState.Some? {
        role := cycle.nextState.value;
      }
    }

    /** One cycle: its start, then event after event until it ends or, not `running`, the feed does. */
    method Update(cycle: Cycle) returns (running: bool, ghost sends: seq<Send>)
      requires cycle.node == this && cycle.Valid() && cycle.nextState.None? && !crashed && |inbox.reinjected| <= 1
      requires S.FreshCycle(n, cycle.Model()) == cycle.Model()
      requires SafeStart(n, me, Still(cycle.Model()), inbox.Pending())
      modifies cycle.Repr()
      ensures outbox == old(outbox) + sends
      ensures running ==> !crashed && |inbox.reinjected| <= 1
      ensures running ==> Starting(n, me, old(Begin(n, me, Still(cycle.Model()), inbox.Pending())), sends, 1,
                                   Idle(), inbox.Pending())
      ensures running ==> Todo(Idle(), inbox.Pending()) < old(Todo(cycle.Model(), inbox.Pending()))
      ensures !running ==> old(Begin(n, me, Still(cycle.Model()), inbox.Pending()))
                           == Course(Still(cycle.Model()), sends, 1)
    {
      hide Safe, Process, SafeStart, Begin;
      ghost var total := Begin(n, me, Still(cycle.Model()), inbox.Pending());
      ghost var todo := Todo(cycle.Model(), inbox.Pending());
      sends := cycle.Open();

      running := false;
      var hasTimedOut := false;
      while !running && inbox.reinjected + inbox.network != []
        invariant |inbox.reinjected| <= 1 && outbox == old(outbox) + sends
        invariant if running then hasTimedOut ==> cycle.nextState.None? else cycle.nextState.None? && !hasTimedOut
        invariant crashed ==> !running && inbox.Pending() == []
        invariant Turned(n, me, total, sends, 1, running, cycle.Turns(running, hasTimedOut), inbox.Pending())
        invariant Todo(cycle.Turns(running, hasTimedOut), inbox.Pending()) <= todo
        invariant running ==> Todo(cycle.Turns(running, hasTimedOut), inbox.Pending()) < todo
        decreases !running, Todo(Still(cycle.Model()), inbox.Pending())
      {
        ghost var (s, feed) := (Still(cycle.Model()), inbox.Pending());
        var leave;
        ghost var more;
        leave, hasTimedOut, more := cycle.Turn();
        running := leave || hasTimedOut;
        TurnAgain(n, me, total, sends, 1, s, feed, more, running, cycle.Turns(running, hasTimedOut), inbox.Pending());
        sends := sends + more;
      }

      ghost var l := cycle.Turns(running, hasTimedOut);
      if running {
        StartAfresh(n, me, total, sends, 1, l, inbox.Pending());
        ChangeState(cycle, hasTimedOut);
      } else {
        FeedEnds(n, me, total, sends, 1, l, inbox.Pending());
      }
    }

    /** Looks whether a message is there and, if so, puts it back: nothing that is to come changes. */
    method Peek()
      requires |inbox.reinjected| <= 1
      modifies inbox
      ensures |inbox.reinjected| <= 1 && inbox.Pending() == old(inbox.Pending())
    {
      var e := inbox.Poll();
      if e.Some? {
        inbox.Reinject(e.value);
      }
    }

    /** Cycle after cycle until the feed ends; the node has then done what Begin says of the whole feed. */
    method Start() returns (cycle: Cycle, ghost sends: seq<Send>, ghost cycles: nat)
      requires Valid() && !crashed && |inbox.reinjected| <= 1
      requires SafeStart(n, me, Idle(), inbox.Pending())
      modifies this, inbox, matchIndex, nextIndex
      ensures cycle.Valid() && cycle.node == this && outbox == old(outbox) + sends
      ensures old(Begin(n, me, Idle(), inbox.Pending())) == Course(Still(cycle.Model()), sends, cycles)
    {
      hide Safe, Process, SafeStart, Begin, Starting, S.Enter;
      ghost var total := Begin(n, me, Idle(), inbox.Pending());
      sends, cycles := [], 0;
      StartFirst(n, me, Idle(), inbox.Pending());
      var running := true;
      cycle := new Cycle(this);
      while running
        invariant outbox == old(outbox) + sends
        invariant cycle.Valid() && cycle.node == this && fresh(cycle) && fresh(cycle.hasVotedForMe)
        invariant running ==> !crashed && |inbox.reinjected| <= 1
        invariant if running then Starting(n, me, total, sends, cycles, Idle(), inbox.Pending())
                  else total == Course(Still(cycle.Model()), sends, cycles)
        decreases running, if running then Todo(Idle(), inbox.Pending()) else 0
      {
        Peek();
        cycle := new Cycle(this);
        StartIs(n, me, total, sends, cycles, Idle(), inbox.Pending());
        ghost var next := Begin(n, me, Idle(), inbox.Pending());
        ghost var more;
        running, more := Update(cycle);
        StartAgain(n, me, total, sends, cycles, next, more, if running then Idle() else Still(cycle.Model()),
                   inbox.Pending(), running);
        sends, cycles := sends + more, cycles + 1;
      }
    }
  }

  class Cycle {
    const node: Node
    const hasVotedForMe: array<bool>
    var nextState: Option<Role>
    var voteCount: int

    ghost predicate Valid() {
      node.Valid() && hasVotedForMe.Length == node.n
    }

    ghost function Model(): NodeState
      reads this, node, node.inbox, node.matchIndex, node.nextIndex, hasVotedForMe
    {
      node.Core(hasVotedForMe[..], voteCount)
    }

    constructor (node: Node)
      requires node.Valid()
      ensures Valid() && this.node == node && nextState.None? && fresh(hasVotedForMe)
      ensures Model() == node.Core(seq(node.n, _ => false), 0)
    {
      this.node := node;
      hasVotedForMe := new bool[node.n](_ => false);
      nextState, voteCount := None, 0;
      new;
      assert hasVotedForMe[..] == seq(node.n, _ => false);
    }

    // -------------------------------------------------------------- every cycle

    method ChangeNextState(r: Role)
      requires nextState.None?
      modifies this`nextState
      ensures nextState == Some(r)
    {
      nextState := Some(r);
    }

    /** Adopts a higher term; a candidate or leader then puts the message back and stops. */
    method CheckAlwaysShouldStop(p: Packet) returns (stop: bool)
      requires Valid() && nextState.None?
      modifies this`nextState, node`term, node`votedFor, node.inbox`reinjected
      ensures stop == S.StepsDown(old(Model()), p)
      ensures nextState == if stop then Some(Follower) else None
      ensures node.inbox.reinjected == old(node.inbox.reinjected) + if stop then [Arrives(p)] else []
      ensures var a := S.AdoptTerm(old(Model()), p.msg.term);
              Model() == if stop then a.(queue := a.queue + [p]) else a
    {
      stop := false;
      if p.msg.term > node.term {
        node.term := p.msg.term;
        node.votedFor := None;
        if node.role != Follower {
          ChangeNextState(Follower);
          PacketsAppend(node.inbox.reinjected, p);
          node.inbox.Reinject(Arrives(p));
          stop := true;
        }
      }
    }

    // -------------------------------------------------------------- follower

    method CheckEntryConsistency(m: Message) returns (ok: bool)
      requires m.AppendEntries? && m.prevLogIndex >= -1
      ensures ok <==> S.Consistent(node.log, m)
    {
      ok := true;
      if m.prevLogIndex != -1
         && (m.prevLogIndex >= |node.log| || node.log[m.prevLogIndex].term != m.prevLogTerm) {
        ok := false;
      }
    }

    /** Drops everything after prevLogIndex and appends the entries; each lands at the index it carries. */
    method AppendEntries(m: Message)
      requires m.AppendEntries? && -1 <= m.prevLogIndex < |node.log|
      requires forall k | 0 <= k < |m.entries| :: m.entries[k].index == m.prevLogIndex + 1 + k
      modifies node`log
      ensures node.log == old(node.log)[..m.prevLogIndex + 1] + m.entries
    {
      node.log := node.log[..m.prevLogIndex + 1];
      for i := 0 to |m.entries|
        invariant node.log == old(node.log)[..m.prevLogIndex + 1] + m.entries[..i]
      {
        assert m.entries[i].index == |node.log|;
        node.log := node.log + [m.entries[i]];
      }
    }

    /** Saves the entries after commitIndex up to the leader's, whose index it then takes, lower or not. */
    method CommitUpTo(leaderCommit: int)
      requires -1 <= node.commitIndex && leaderCommit < |node.log|
      modifies node`commitIndex, node`saved
      ensures node.commitIndex == leaderCommit
      ensures node.saved == old(node.saved)
              + if leaderCommit > old(node.commitIndex)
                then node.log[old(node.commitIndex) + 1..leaderCommit + 1] else []
    {
      var index := node.commitIndex + 1;
      while index <= leaderCommit
        invariant unchanged(node`commitIndex) && node.commitIndex + 1 <= index
        invariant index <= leaderCommit + 1 || index == node.commitIndex + 1
        invariant node.saved == old(node.saved)
                  + if index <= leaderCommit + 1 then node.log[node.commitIndex + 1..index] else []
      {
        node.SaveCommit(node.log[index]);
        index := index + 1;
      }
      node.commitIndex := leaderCommit;
    }

    method HandleAppendEntries(p: Packet)
      requires Valid() && p.msg.AppendEntries? && S.DefinedAppend(Model(), p.msg)
      modifies node`log, node`commitIndex, node`saved, node`outbox
      ensures var o := S.HandleAppendEntries(old(Model()), p);
              Model() == o.node && node.outbox == old(node.outbox) + o.sends
    {
      var m := p.msg;
      if m.term < node.term {
        node.SendRpc(p.src, AppendEntriesResponse(node.term, false, |node.log|));
        return;
      }
      var ok := CheckEntryConsistency(m);
      if !ok {
        node.SendRpc(p.src, AppendEntriesResponse(node.term, false, |node.log|));
        return;
      }
      AppendEntries(m);
      CommitUpTo(m.leaderCommit);
      if m.entries != [] {
        node.SendRpc(p.src, AppendEntriesResponse(node.term, true, |node.log|));
      }
    }

    method HandleRequestVote(p: Packet)
      requires Valid() && p.msg.RequestVote?
      modifies node`votedFor, node`outbox
      ensures var o := S.HandleRequestVote(old(Model()), p);
              Model() == o.node && node.outbox == old(node.outbox) + o.sends
    {
      if p.msg.term < node.term {
        node.SendRpc(p.src, RequestVoteResponse(node.term, false));
      } else if node.votedFor.Some? {
        node.SendRpc(p.src, RequestVoteResponse(node.term, node.votedFor.value == p.src));
      } else if node.log == []
                || node.log[|node.log| - 1].term < p.msg.lastLogTerm
                || (node.log[|node.log| - 1].term == p.msg.lastLogTerm && |node.log| - 1 <= p.msg.lastLogIndex) {
        node.votedFor := Some(p.src);
        node.SendRpc(p.src, RequestVoteResponse(node.term, true));
      } else {
        node.SendRpc(p.src, RequestVoteResponse(node.term, false));
      }
    }

    /** A request for a vote and an append end the cycle: the follower's timer starts afresh. */
    method FollowerRequest(p: Packet) returns (leave: bool)
      requires Valid() && (p.msg.AppendEntries? ==> S.DefinedAppend(Model(), p.msg))
      modifies node`votedFor, node`log, node`commitIndex, node`saved, node`outbox
      ensures leave <==> p.msg.RequestVote? || p.msg.AppendEntries?
      ensures var h := S.FollowerHandle(old(Model()), p);
              Model() == h.node && leave == h.leave && node.outbox == old(node.outbox) + h.sends
    {
      leave := false;
      if p.msg.RequestVote? {
        HandleRequestVote(p);
        leave := true;
      } else if p.msg.AppendEntries? {
        HandleAppendEntries(p);
        leave := true;
      }
    }

    // -------------------------------------------------------------- candidate

    method StandForElection()
      requires Valid()
      modifies this`voteCount, node`term, node`votedFor, node`outbox
      ensures Model() == S.Campaign(node.me, old(Model()))
      ensures node.outbox == old(node.outbox) + S.VoteRequests(node.me, Model(), node.n)
      ensures |node.outbox| == |old(node.outbox)| + node.n - 1
      ensures forall f | 0 <= f < node.n && f != node.me ::
                node.outbox[|old(node.outbox)| + Place(node.me, f)]
                == Send(f, RequestVote(node.term, node.me, |node.log| - 1, S.LastTerm(node.log)))
    {
      node.term := node.term + 1;
      node.votedFor := Some(node.me);
      voteCount := voteCount + 1;
      var lastLogIndex := |node.log| - 1;
      var lastLogTerm := if node.log == [] then -1 else node.log[|node.log| - 1].term;
      var rpc := RequestVote(node.term, node.me, lastLogIndex, lastLogTerm);
      ghost var stands := Model();
      for dst := 0 to node.n
        invariant Model() == stands
        invariant node.outbox == old(node.outbox) + S.VoteRequests(node.me, stands, dst)
      {
        if dst != node.me {
          node.SendRpc(dst, rpc);
        }
      }
      RequestsPlaced(node.me, stands, node.n);
    }

    method CountVote(p: Packet) returns (leave: bool)
      requires Valid() && nextState.None? && 0 <= p.src < node.n
      modifies this, hasVotedForMe, node.inbox`reinjected
      ensures p.msg.RequestVoteResponse? && p.msg.voteGranted ==>
                hasVotedForMe[p.src] && voteCount == old(voteCount) + if old(hasVotedForMe[p.src]) then 0 else 1
      ensures var h := S.CandidateHandle(node.n, old(Model()), p);
              Model() == h.node && leave == h.leave && nextState == h.next && node.outbox == old(node.outbox) + h.sends
      ensures node.inbox.reinjected
              == old(node.inbox.reinjected) + if nextState == Some(Follower) then [Arrives(p)] else []
    {
      leave := false;
      if p.msg.RequestVoteResponse? {
        if p.msg.voteGranted && !hasVotedForMe[p.src] {
          hasVotedForMe[p.src] := true;
          voteCount := voteCount + 1;
          assert hasVotedForMe[..] == old(hasVotedForMe[..])[p.src := true];
          if voteCount > node.n / 2 {
            ChangeNextState(Leader);
            leave := true;
          }
        }
      } else if p.msg.AppendEntries? {
        if p.msg.term >= node.term {
          ChangeNextState(Follower);
          PacketsAppend(node.inbox.reinjected, p);
          node.inbox.Reinject(Arrives(p));
          leave := true;
        }
      }
    }

    // -------------------------------------------------------------- leader

    method SendUpdateToFollower(dst: int)
      requires Valid() && 0 <= dst < node.n && node.nextIndex[dst] >= 0
      modifies node`outbox
      ensures node.outbox == old(node.outbox) + [Send(dst, S.AppendFor(node.me, Model(), dst))]
    {
      var prevLogTerm := 0;
      var prevLogIndex := node.nextIndex[dst] - 1;
      if 0 <= prevLogIndex < |node.log| {
        prevLogTerm := node.log[prevLogIndex].term;
      }
      var entries := [];
      var i := prevLogIndex + 1;
      while i < |node.log|
        invariant prevLogIndex + 1 <= i
        invariant i <= |node.log| ==> entries == node.log[prevLogIndex + 1..i]
        invariant i > |node.log| ==> entries == [] && i == prevLogIndex + 1
      {
        entries := entries + [node.log[i]];
        i := i + 1;
      }
      assert i <= |node.log| ==> node.log[prevLogIndex + 1..i] == node.log[prevLogIndex + 1..];
      var rpc := Message.AppendEntries(node.term, node.me, prevLogIndex, prevLogTerm, node.commitIndex, entries);
      node.SendRpc(dst, rpc);
    }

    method SendUpdates()
      requires Valid() && forall f | 0 <= f < node.n :: node.nextIndex[f] >= 0
      modifies node`outbox
      ensures node.outbox == old(node.outbox) + S.Updates(node.me, Model(), node.n)
      ensures |node.outbox| == |old(node.outbox)| + node.n - 1
      ensures forall f | 0 <= f < node.n && f != node.me ::
                node.outbox[|old(node.outbox)| + Place(node.me, f)] == Send(f, S.AppendFor(node.me, Model(), f))
    {
      ghost var s := Model();
      for dst := 0 to node.n
        invariant Model() == s
        invariant node.outbox == old(node.outbox) + S.Updates(node.me, s, dst)
      {
        if dst != node.me {
          SendUpdateToFollower(dst);
        }
      }
      UpdatesPlaced(node.me, s, node.n);
    }

    /** Counts the nodes that hold the entry after commitIndex and moves on when they are a majority. */
    method UpdateCommitIndex() returns (advanced: bool)
      requires Valid() && node.commitIndex < |node.log|
      modifies node`commitIndex
      ensures advanced <==>
              |S.Matched(node.n, node.me, node.matchIndex[..], old(node.commitIndex) + 1)| > node.n / 2
      ensures node.commitIndex == old(node.commitIndex) + if advanced then 1 else 0
    {
      var majority := 0;
      ghost var k := node.commitIndex + 1;
      ghost var seen: set<int> := {};
      for dst := 0 to node.n
        invariant seen == set v | 0 <= v < dst && (v == node.me || node.matchIndex[v] >= k)
        invariant majority == |seen|
      {
        if dst == node.me {
          majority := majority + 1;
          seen := seen + {dst};
          continue;
        }
        if node.matchIndex[dst] >= node.commitIndex + 1 {
          majority := majority + 1;
          seen := seen + {dst};
        }
      }
      assert seen == S.Matched(node.n, node.me, node.matchIndex[..], k);
      advanced := false;
      if majority > node.n / 2 {
        node.commitIndex := node.commitIndex + 1;
        advanced := true;
      }
    }

    method RespondClient()
      requires 0 <= node.commitIndex < |node.log|
      modifies node`replied
      ensures node.replied == old(node.replied) + [node.log[node.commitIndex].clientId]
    {
      node.replied := node.replied + [node.log[node.commitIndex].clientId];
    }

    /** Commits and saves one entry after the other, and answers its client, while a majority holds the next. */
    method CommitWhileMajority()
      requires Valid() && -1 <= node.commitIndex
      requires S.CommitTarget(node.n, node.me, node.matchIndex[..], node.commitIndex) < |node.log|
      modifies node`commitIndex, node`saved, node`replied
      ensures node.commitIndex
              == S.CommitTarget(node.n, node.me, node.matchIndex[..], old(node.commitIndex)) >= old(node.commitIndex)
      ensures var es := node.log[old(node.commitIndex) + 1..node.commitIndex + 1];
              node.saved == old(node.saved) + es && node.replied == old(node.replied) + S.Clients(es)
    {
      hide S.CommitTarget, S.Matched;
      ghost var (c, held) := (node.commitIndex, node.matchIndex[..]);
      ghost var target := S.CommitTarget(node.n, node.me, held, c);
      ghost var done := c;
      CommitNext(node.n, node.me, held, c);
      var advanced := UpdateCommitIndex();
      while advanced
        invariant c <= done && node.commitIndex == done + if advanced then 1 else 0
        invariant node.commitIndex <= target == S.CommitTarget(node.n, node.me, held, node.commitIndex)
        invariant !advanced ==> done == target
        invariant node.saved == old(node.saved) + node.log[c + 1..done + 1]
        invariant node.replied == old(node.replied) + S.Clients(node.log[c + 1..done + 1])
        decreases target - done
      {
        RespondClient();
        node.SaveCommit(node.log[node.commitIndex]);
        OneMore(old(node.saved), old(node.replied), node.log, c + 1, node.commitIndex);
        done := node.commitIndex;
        CommitNext(node.n, node.me, held, done);
        advanced := UpdateCommitIndex();
      }
    }

    method CommitEntries()
      requires Valid() && S.DefinedCommit(node.n, node.me, Model())
      modifies node`commitIndex, node`saved, node`replied
      ensures Model() == S.CommitLoop(node.n, node.me, old(Model()))
    {
      CommitWhileMajority();
    }

    method HandleAck(p: Packet)
      requires Valid() && p.msg.AppendEntriesResponse? && 0 <= p.src < node.n && S.DefinedAck(Model(), p)
      modifies node.nextIndex, node.matchIndex, node`outbox
      ensures var o := S.HandleAck(node.me, old(Model()), p);
              Model() == o.node && node.outbox == old(node.outbox) + o.sends
    {
      if p.msg.success {
        node.nextIndex[p.src] := p.msg.newIndex;
        node.matchIndex[p.src] := p.msg.newIndex - 1;
        assert node.nextIndex[..] == old(node.nextIndex[..])[p.src := p.msg.newIndex];
        assert node.matchIndex[..] == old(node.matchIndex[..])[p.src := p.msg.newIndex - 1];
      } else {
        node.nextIndex[p.src] := node.nextIndex[p.src] - 1;
        assert node.nextIndex[..] == old(node.nextIndex[..])[p.src := old(node.nextIndex[p.src]) - 1];
        SendUpdateToFollower(p.src);
      }
    }

    method LeaderRequest(p: Packet)
      requires Valid() && 0 <= p.src < node.n && S.DefinedAck(Model(), p)
      requires S.DefinedCommit(node.n, node.me, S.HandleAck(node.me, Model(), p).node)
      modifies node.nextIndex, node.matchIndex, node`outbox, node`commitIndex, node`saved, node`replied
      ensures var h := S.LeaderHandle(node.n, node.me, old(Model()), p);
              Model() == h.node && node.outbox == old(node.outbox) + h.sends
    {
      if p.msg.AppendEntriesResponse? {
        HandleAck(p);
      }
      CommitEntries();
    }

    // -------------------------------------------------------------- the cycle by role

    method PreCycle()
      requires Valid() && S.FreshCycle(node.n, Model()) == Model() && S.DefinedEnter(Model())
      modifies this`voteCount, node`term, node`votedFor, node`outbox
      ensures var e := S.Enter(node.n, node.me, old(Model()));
              Model() == e.node && node.outbox == old(node.outbox) + e.sends
    {
      match node.role {
        case Follower =>
        case Leader => SendUpdates();
        case Candidate => StandForElection();
      }
    }

    method HandleNodeRequest(p: Packet) returns (leave: bool)
      requires Valid() && nextState.None? && S.Defined(node.n, node.me, Model(), p)
      modifies this, hasVotedForMe, node, node.inbox`reinjected, node.matchIndex, node.nextIndex
      ensures old(node.role) == Follower ==> (leave <==> p.msg.RequestVote? || p.msg.AppendEntries?)
      ensures old(node.role) == Leader ==> (leave <==> p.msg.term > old(node.term))
      ensures old(node.role) == Candidate ==>
                (leave <==> p.msg.term > old(node.term) || (p.msg.AppendEntries? && p.msg.term == old(node.term))
                            || (p.msg.RequestVoteResponse? && p.msg.voteGranted && 0 <= p.src < node.n
                                && !old(hasVotedForMe[..])[p.src] && old(voteCount) + 1 > node.n / 2))
      ensures var h := S.Handle(node.n, node.me, old(Model()), p);
              Model() == h.node && leave == h.leave && nextState == h.next && node.outbox == old(node.outbox) + h.sends
      ensures node.inbox.reinjected
              == old(node.inbox.reinjected) + if nextState == Some(Follower) then [Arrives(p)] else []
    {
      HandleLeaves(node.n, node.me, Model(), p);
      leave := CheckAlwaysShouldStop(p);
      if leave {
        return;
      }
      match node.role {
        case Follower => leave := FollowerRequest(p);
        case Candidate => leave := CountVote(p);
        case Leader => LeaderRequest(p);
      }
    }

    method HandleClientRequest(cmd: string, clientId: int)
      requires Valid()
      modifies node`log
      ensures Model() == S.ClientAppend(old(Model()), cmd, clientId)
    {
      if node.role == Leader {
        node.log := node.log + [Entry(|node.log|, node.term, cmd, clientId)];
      }
    }

    /** What nextState is after post_cycle. */
    ghost function Next(hasTimedOut: bool): Option<Role>
      reads this, node
    {
      if hasTimedOut && node.role == Follower then Some(Candidate) else nextState
    }

    method PostCycle(hasTimedOut: bool)
      requires Valid() && (hasTimedOut ==> nextState.None?)
      modifies this`nextState, node.matchIndex, node.nextIndex
      ensures nextState == old(Next(hasTimedOut))
      ensures Model() == if node.role == Candidate && nextState == Some(Leader)
                         then S.InitLeader(node.n, old(Model())) else old(Model())
    {
      if node.role == Follower && hasTimedOut {
        ChangeNextState(Candidate);
      } else if node.role == Candidate && nextState == Some(Leader) {
        node.InitLeader();
        assert node.matchIndex[..] == S.InitLeader(node.n, old(Model())).matchIndex;
        assert node.nextIndex[..] == S.InitLeader(node.n, old(Model())).nextIndex;
      }
    }

    /** The start of a new cycle, before the first event. */
    method Open() returns (ghost sends: seq<Send>)
      requires Valid() && S.FreshCycle(node.n, Model()) == Model()
      requires SafeStart(node.n, node.me, Still(Model()), node.inbox.Pending())
      modifies this`voteCount, node`term, node`votedFor, node`outbox
      ensures node.outbox == old(node.outbox) + sends
      ensures Waiting(node.n, node.me, old(Begin(node.n, node.me, Still(Model()), node.inbox.Pending())), sends, 1,
                      Still(Model()), node.inbox.Pending())
    {
      EnterStill(node.n, node.me, Model());
      sends := S.Enter(node.n, node.me, Model()).sends;
      PreCycle();
    }

    // -------------------------------------------------------------- one turn of the driver's inner loop

    ghost function Repr(): set<object> {
      {this, hasVotedForMe, node, node.inbox, node.matchIndex, node.nextIndex}
    }

    ghost function Pending(): seq<Event>
      reads node.inbox
    {
      node.inbox.Pending()
    }

    /** A crashed node throws away what it receives until it is told to recover, or the feed ends. */
    method CrashLoop()
      requires Valid() && node.crashed && |node.inbox.reinjected| <= 1
      requires Safe(node.n, node.me, Still(Model()), Pending())
      modifies node`crashed, node.inbox
      ensures |node.inbox.reinjected| <= 1
      ensures Still(Model()) == old(Still(Model())).(crashed := node.crashed)
      ensures |Pending()| <= |old(Pending())|
      ensures var total := old(Process(node.n, node.me, Still(Model()), Pending()));
              if node.crashed then Pending() == [] && Waiting(node.n, node.me, total, [], 0, Still(Model()), [])
              else Starting(node.n, node.me, total, [], 0, Still(Model()), Pending())
      decreases |Pending()|, 0
    {
      ghost var (s, feed) := (Still(Model()), Pending());
      ghost var total := Process(node.n, node.me, s, feed);
      while node.crashed && node.inbox.reinjected + node.inbox.network != []
        invariant |node.inbox.reinjected| <= 1 && |Pending()| <= |feed|
        invariant Still(Model()) == s.(crashed := node.crashed)
        invariant node.crashed ==> Safe(node.n, node.me, s, Pending())
                                   && total == Process(node.n, node.me, s, Pending())
        invariant !node.crashed ==> Starting(node.n, node.me, total, [], 0, Still(Model()), Pending())
        decreases node.crashed, |Pending()|
      {
        ghost var before := Pending();
        var e, skipped := node.inbox.GetBlocking();
        if e.Some? {
          CrashedMeets(node.n, node.me, s, before, skipped, e.value, Pending());
          if e.value.CrashCommand? || e.value.RecoverCommand? {
            var _ := HandleControllerRequest(e.value);
          }
        } else {
          CrashedSkips(node.n, node.me, s, before, skipped);
          assert before[skipped..] == Pending();
        }
      }
    }

    /** Crash and recovery; `leave` also tells that the feed did not end while the node was crashed. */
    method HandleControllerRequest(e: Event) returns (leave: bool)
      requires Valid() && (e.CrashCommand? || e.RecoverCommand?)
      requires !node.crashed ==>
                 |node.inbox.reinjected| <= 1 && Safe(node.n, node.me, Still(Model()), [e] + Pending())
      modifies node`crashed, node.inbox
      ensures old(node.crashed) ==> !leave && node.crashed == e.CrashCommand? && unchanged(node.inbox)
      ensures Still(Model()) == old(Still(Model())).(crashed := node.crashed)
      ensures |Pending()| <= |old(Pending())|
      ensures leave <==> !old(node.crashed) && e.CrashCommand? && !node.crashed
      ensures !old(node.crashed) ==>
                && |node.inbox.reinjected| <= 1
                && var total := old(Process(node.n, node.me, Still(Model()), [e] + Pending()));
                if leave then !node.crashed && Starting(node.n, node.me, total, [], 0, Still(Model()), Pending())
                else (node.crashed ==> Pending() == [])
                     && Waiting(node.n, node.me, total, [], 0, Still(Model()), Pending())
      decreases |Pending()|, 1
    {
      leave := false;
      if !node.crashed {
        ProcessOne(node.n, node.me, Still(Model()), e, Pending());
        assert Arrivals([]) + Pending() == Pending();
      }
      match e {
        case CrashCommand =>
          if !node.crashed {
            node.crashed := true;
            CrashLoop();
            leave := !node.crashed;
          }
        case RecoverCommand =>
          if node.crashed {
            node.crashed := false;
          }
        case _ =>
      }
    }

    /** The node's state once the cycle is left, if it ends, or as it is. */
    ghost function Turns(ends: bool, hasTimedOut: bool): NodeState
      requires Valid()
      reads this, node, node.inbox, node.matchIndex, node.nextIndex, hasVotedForMe
    {
      if ends then S.Leave(node.n, Still(Model()), Next(hasTimedOut)) else Still(Model())
    }

    method TakeMessage(p: Packet) returns (leave: bool, ghost sends: seq<Send>)
      requires Valid() && nextState.None? && !node.crashed && node.inbox.reinjected == []
      requires Safe(node.n, node.me, Still(Model()), [Arrives(p)] + Pending())
      modifies Repr()
      ensures |node.inbox.reinjected| <= 1 && !node.crashed && (!leave ==> nextState.None?)
      ensures node.outbox == old(node.outbox) + sends
      ensures Turned(node.n, node.me, old(Process(node.n, node.me, Still(Model()), [Arrives(p)] + Pending())), sends,
                     0, leave, Turns(leave, false), Pending())
      ensures leave <==> EndsCycle(node.n, old(Model()), Arrives(p))
      ensures Todo(Turns(leave, false), Pending()) < old(Todo(Still(Model()), [Arrives(p)] + Pending()))
    {
      hide Safe, Process, S.Handle;
      ghost var (s, rest) := (Model(), Pending());
      assert Still(s) == s;
      MessageTurns(node.n, node.me, s, p, rest);
      ghost var h := S.Handle(node.n, node.me, s, p);
      sends := h.sends;
      leave := HandleNodeRequest(p);
      assert Pending() == (if h.next == Some(Follower) then [Arrives(p)] else []) + rest;
      assert Turns(leave, false) == Still(if h.leave then S.Leave(node.n, h.node, h.next) else h.node);
    }

    /** Takes the next event and handles it: the body of the inner loop. */
    method Turn() returns (leave: bool, hasTimedOut: bool, ghost sends: seq<Send>)
      requires Valid() && nextState.None? && !node.crashed && |node.inbox.reinjected| <= 1 && Pending() != []
      requires Safe(node.n, node.me, Still(Model()), Pending())
      modifies Repr()
      ensures |node.inbox.reinjected| <= 1
      ensures hasTimedOut ==> nextState.None? && !leave
      ensures !leave && !hasTimedOut ==> nextState.None?
      ensures node.crashed ==> !leave && !hasTimedOut && Pending() == []
      ensures node.outbox == old(node.outbox) + sends
      ensures hasTimedOut <==> old(Pending()[0]) == Silence
      ensures leave || hasTimedOut <==>
                EndsCycle(node.n, old(Still(Model())), old(Pending()[0]))
                || (old(Pending()[0]) == CrashCommand && !node.crashed)
      ensures Turned(node.n, node.me, old(Process(node.n, node.me, Still(Model()), Pending())), sends, 0,
                     leave || hasTimedOut, Turns(leave || hasTimedOut, hasTimedOut), Pending())
      ensures Todo(Turns(leave || hasTimedOut, hasTimedOut), Pending()) < old(Todo(Still(Model()), Pending()))
    {
      hide Safe, Process, EndsCycle;
      leave, hasTimedOut, sends := false, false, [];
      ghost var (s, feed) := (Still(Model()), Pending());
      var e := node.inbox.GetTimeout();
      if !e.Arrives? {
        OthersEnd(node.n, s, e);
      }
      ghost var rest := Pending();
      assert node.inbox.reinjected == [] && Model() == s && feed == [e] + rest;
      match e {
        case Arrives(p) =>
          leave, sends := TakeMessage(p);
        case Silence =>
          SilenceTurns(node.n, node.me, s, rest);
          hasTimedOut := true;
        case ClientCommand(cmd, clientId) =>
          ProcessOne(node.n, node.me, s, e, rest);
          assert Arrivals([]) + rest == rest;
          HandleClientRequest(cmd, clientId);
        case _ =>
          leave := HandleControllerRequest(e);
      }
    }
  }
}
