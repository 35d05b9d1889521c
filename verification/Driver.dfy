/**
  What a whole run of one node's driver loop does, as a function of the inputs that reach it.
  Between inputs the node's queue is empty: a message that is put back becomes the next input.
 */
module DriverSpec {
  import opened Types
  import opened NodeSpec

  /** What the receiver yields next. Silence means that nothing comes before the timer runs out. */
  datatype Event =
    | Arrives(p: Packet)
    | Silence
    | CrashCommand
    | RecoverCommand
    | ClientCommand(cmd: string, clientId: int)

  /** No assertion of the source fails when the node meets this event. */
  predicate Fits(n: int, me: int, s: NodeState, e: Event) {
    && Shaped(n, me, s)
    && match e
       case Arrives(p) => !s.crashed ==> Defined(n, me, s, p)
       case Silence => !s.crashed ==> DefinedEnter(s)
       case RecoverCommand => s.crashed ==> DefinedEnter(s)
       case _ => true
  }

  /** One event at a node that waits for input. */
  function React(n: int, me: int, s: NodeState, e: Event): Outcome
    requires Fits(n, me, s, e)
  {
    match e
    case Arrives(p) => if s.crashed then Outcome(s, []) else Receive(n, me, s, p)
    case Silence => if s.crashed then Outcome(s, []) else Expire(n, me, s)
    case CrashCommand => Outcome(s.(crashed := true), [])
    case RecoverCommand => if s.crashed then Recover(n, me, s) else Outcome(s, [])
    case ClientCommand(cmd, clientId) => Outcome(if s.crashed then s else ClientAppend(s, cmd, clientId), [])
  }

  /**
    The event ends the node's cycle, and the next cycle starts its timer afresh: a timeout, or recovery from a crash;
    for a follower a request for its vote or an append; for the others a message on which they change their role.
   */
  predicate EndsCycle(n: int, s: NodeState, e: Event) {
    if s.crashed then e.RecoverCommand?
    else match e
      case Silence => true
      case Arrives(p) =>
        (match s.role
         case Follower => p.msg.RequestVote? || p.msg.AppendEntries?
         case Leader => p.msg.term > s.term
         case Candidate =>
           || p.msg.term > s.term
           || (p.msg.AppendEntries? && p.msg.term == s.term)
           || (p.msg.RequestVoteResponse? && p.msg.voteGranted
               && 0 <= p.src < |s.granted| && !s.granted[p.src] && s.voteCount + 1 > n / 2))
      case _ => false
  }

  /** Where a feed leaves the node, what the node sends on the way, and how many cycles it begins. */
  datatype Course = Course(node: NodeState, sends: seq<Send>, cycles: nat)

  function Still(s: NodeState): NodeState {
    s.(queue := [])
  }

  function Arrivals(q: seq<Packet>): seq<Event> {
    if q == [] then [] else [Arrives(q[0])] + Arrivals(q[1..])
  }

  function After(sends: seq<Send>, cycles: nat, c: Course): Course {
    Course(c.node, sends + c.sends, cycles + c.cycles)
  }

  lemma {:induction false} EnterQueue(n: int, me: int, s: NodeState)
    requires Shaped(n, me, s) && DefinedEnter(s)
    ensures var s' := Enter(n, me, s).node; Shaped(n, me, s') && s'.queue == s.queue
    ensures s.role == Follower ==> Enter(n, me, s).node.role == Follower
  {
  }

  lemma {:induction false} HandleEnds(n: int, me: int, s: NodeState, p: Packet)
    requires Shaped(n, me, s) && Defined(n, me, s, p) && s.queue == []
    ensures var h := Handle(n, me, s, p);
            && Shaped(n, me, h.node)
            && h.node.queue == (if h.next == Some(Follower) then [p] else [])
            && (h.next == Some(Follower) ==> h.leave && s.role != Follower)
            && (!h.leave ==> h.next.None? && h.node.role == s.role) && h.node.crashed == s.crashed
  {
  }

  lemma {:induction false} LeaveStarts(n: int, me: int, s: NodeState, p: Packet)
    requires Shaped(n, me, s) && Defined(n, me, s, p) && Handle(n, me, s, p).leave
    ensures var h := Handle(n, me, s, p); DefinedEnter(Leave(n, h.node, h.next))
  {
  }

  /** A message is put back only by a node that turns follower with it, so the driver makes progress. */
  lemma {:induction false} ReactQueue(n: int, me: int, s: NodeState, e: Event)
    requires Fits(n, me, s, e) && s.queue == []
    ensures var s' := React(n, me, s, e).node;
            && Shaped(n, me, s')
            && (s'.queue == [] || (e.Arrives? && s'.queue == [e.p] && s.role != Follower && s'.role == Follower))
            && Arrivals(s'.queue) == if s'.queue == [] then [] else [e]
  {
    match e {
      case Arrives(p) =>
        if !s.crashed {
          HandleEnds(n, me, s, p);
          var h := Handle(n, me, s, p);
          if h.leave {
            LeaveStarts(n, me, s, p);
            EnterQueue(n, me, Leave(n, h.node, h.next));
          }
        }
      case Silence =>
        if !s.crashed {
          EnterQueue(n, me, Leave(n, s, if s.role == Follower then Some(Candidate) else None));
        }
      case RecoverCommand =>
        if s.crashed {
          EnterQueue(n, me, s.(crashed := false));
        }
      case _ =>
    }
    var s' := React(n, me, s, e).node;
    assert s'.queue != [] ==> s'.queue[1..] == [];
  }

  function Todo(s: NodeState, feed: seq<Event>): nat {
    2 * |feed| + if s.role == Follower then 0 else 1
  }

  /** The inputs still to come after the node has met the first of the feed. */
  function Rest(n: int, me: int, s: NodeState, feed: seq<Event>): (r: seq<Event>)
    requires feed != [] && s.queue == [] && Fits(n, me, s, feed[0])
    ensures Todo(Still(React(n, me, s, feed[0]).node), r) < Todo(s, feed)
  {
    ReactQueue(n, me, s, feed[0]);
    Arrivals(React(n, me, s, feed[0]).node.queue) + feed[1..]
  }

  /** No assertion of the source fails while the node works through the feed. */
  predicate Safe(n: int, me: int, s: NodeState, feed: seq<Event>)
    requires s.queue == []
    decreases Todo(s, feed)
  {
    feed == [] ||
    (Fits(n, me, s, feed[0]) && Safe(n, me, Still(React(n, me, s, feed[0]).node), Rest(n, me, s, feed)))
  }

  /** The node works through the feed from a point where it waits for input. */
  function Process(n: int, me: int, s: NodeState, feed: seq<Event>): Course
    requires s.queue == [] && Safe(n, me, s, feed)
    decreases Todo(s, feed)
  {
    if feed == [] then Course(s, [], 0)
    else
      var o := React(n, me, s, feed[0]);
      After(o.sends, if EndsCycle(n, s, feed[0]) then 1 else 0,
            Process(n, me, Still(o.node), Rest(n, me, s, feed)))
  }

  /** The node is about to start a cycle and then works through the feed. */
  predicate SafeStart(n: int, me: int, s: NodeState, feed: seq<Event>)
    requires s.queue == []
  {
    Shaped(n, me, s) && DefinedEnter(s) && Safe(n, me, Enter(n, me, s).node, feed)
  }

  function Begin(n: int, me: int, s: NodeState, feed: seq<Event>): Course
    requires s.queue == [] && SafeStart(n, me, s, feed)
  {
    var e := Enter(n, me, s);
    After(e.sends, 1, Process(n, me, e.node, feed))
  }

  // ---------------------------------------------------------------- putting a message back

  lemma {:induction false} UpdatesStill(me: int, s: NodeState, d: int)
    requires 0 <= d <= |s.nextIndex| && forall f | 0 <= f < |s.nextIndex| :: s.nextIndex[f] >= 0
    ensures Updates(me, Still(s), d) == Updates(me, s, d)
  {
    if d > 0 {
      UpdatesStill(me, s, d - 1);
    }
  }

  lemma {:induction false} RequestsStill(me: int, s: NodeState, d: int)
    ensures VoteRequests(me, Still(s), d) == VoteRequests(me, s, d)
    decreases d
  {
    if d > 0 {
      RequestsStill(me, s, d - 1);
    }
  }

  /** Starting a cycle neither reads nor changes the queue. */
  lemma {:induction false} EnterStill(n: int, me: int, s: NodeState)
    requires Shaped(n, me, s) && DefinedEnter(s)
    ensures var (e, f) := (Enter(n, me, s), Enter(n, me, Still(s)));
            f.node == Still(e.node) && f.sends == e.sends && e.node.queue == s.queue && f.node.queue == []
  {
    var f := FreshCycle(n, s);
    assert FreshCycle(n, Still(s)) == Still(f);
    match s.role {
      case Follower =>
      case Leader => UpdatesStill(me, f, n);
      case Candidate =>
        assert Campaign(me, Still(f)) == Still(Campaign(me, f));
        RequestsStill(me, Campaign(me, f), n);
    }
  }

  lemma {:induction false} ProcessOne(n: int, me: int, s: NodeState, e: Event, rest: seq<Event>)
    requires s.queue == [] && Safe(n, me, s, [e] + rest)
    ensures Fits(n, me, s, e)
    ensures var o := React(n, me, s, e);
            var feed := Arrivals(o.node.queue) + rest;
            && Safe(n, me, Still(o.node), feed)
            && Process(n, me, s, [e] + rest)
               == After(o.sends, if EndsCycle(n, s, e) then 1 else 0, Process(n, me, Still(o.node), feed))
  {
    var feed := [e] + rest;
    assert feed[0] == e && feed[1..] == rest;
  }

  lemma {:induction false} AfterAfter(a: seq<Send>, i: nat, b: seq<Send>, j: nat, c: Course)
    ensures After(a, i, After(b, j, c)) == After(a + b, i + j, c)
  {
    assert a + (b + c.sends) == (a + b) + c.sends;
  }

  lemma {:induction false} AfterNothing(c: Course)
    ensures After([], 0, c) == c
  {
    assert [] + c.sends == c.sends;
  }

  lemma {:induction false} OthersEnd(n: int, s: NodeState, e: Event)
    requires !s.crashed && !e.Arrives?
    ensures EndsCycle(n, s, e) <==> e == Silence
  {
  }

  lemma {:induction false} HandleLeaves(n: int, me: int, s: NodeState, p: Packet)
    requires Shaped(n, me, s) && Defined(n, me, s, p)
    ensures Handle(n, me, s, p).leave <==> EndsCycle(n, s.(crashed := false), Arrives(p))
  {
  }

  /** A message that the node handles ends the cycle, or leaves it waiting. */
  lemma {:induction false} MessageTurns(n: int, me: int, s: NodeState, p: Packet, rest: seq<Event>)
    requires s.queue == [] && !s.crashed && Safe(n, me, s, [Arrives(p)] + rest)
    ensures Shaped(n, me, s) && Defined(n, me, s, p)
    ensures var h := Handle(n, me, s, p);
            var l := if h.leave then Leave(n, h.node, h.next) else h.node;
            var feed := (if h.next == Some(Follower) then [Arrives(p)] else []) + rest;
            && Turned(n, me, Process(n, me, s, [Arrives(p)] + rest), h.sends, 0, h.leave, Still(l), feed)
            && (h.leave <==> EndsCycle(n, s, Arrives(p)))
            && Todo(Still(l), feed) < Todo(s, [Arrives(p)] + rest)
            && !l.crashed && (!h.leave ==> h.next.None?)
  {
    ProcessOne(n, me, s, Arrives(p), rest);
    var h := Handle(n, me, s, p);
    HandleEnds(n, me, s, p);
    HandleLeaves(n, me, s, p);
    assert s.(crashed := false) == s;
    assert Arrivals(h.node.queue) == if h.next == Some(Follower) then [Arrives(p)] else [] by {
      if h.node.queue == [p] {
        assert h.node.queue[1..] == [];
      }
    }
    if h.leave {
      LeaveStarts(n, me, s, p);
      LeaveThenBegin(n, me, s, Arrives(p), rest, Leave(n, h.node, h.next), h.sends);
    }
  }

  /** An event that ends the cycle is followed by the start of the next one. */
  lemma {:induction false} LeaveThenBegin(n: int, me: int, s: NodeState, e: Event, rest: seq<Event>,
                                          l: NodeState, sends: seq<Send>)
    requires s.queue == [] && Safe(n, me, s, [e] + rest) && Fits(n, me, s, e)
    requires Shaped(n, me, l) && DefinedEnter(l) && EndsCycle(n, s, e)
    requires var o := Enter(n, me, l); React(n, me, s, e) == Outcome(o.node, sends + o.sends)
    ensures SafeStart(n, me, Still(l), Arrivals(l.queue) + rest)
    ensures Process(n, me, s, [e] + rest) == After(sends, 0, Begin(n, me, Still(l), Arrivals(l.queue) + rest))
  {
    ProcessOne(n, me, s, e, rest);
    EnterStill(n, me, l);
    var o := Enter(n, me, l);
    AfterAfter(sends, 0, o.sends, 1, Process(n, me, Still(o.node), Arrivals(l.queue) + rest));
  }

  /** `total` is these sends and cycles, then the feed from a point where the node waits for input. */
  predicate Waiting(n: int, me: int, total: Course, sends: seq<Send>, cycles: nat, s: NodeState, feed: seq<Event>)
    requires s.queue == []
  {
    Safe(n, me, s, feed) && total == After(sends, cycles, Process(n, me, s, feed))
  }

  /** `total` is these sends and cycles, then the start of a cycle and the feed. */
  predicate Starting(n: int, me: int, total: Course, sends: seq<Send>, cycles: nat, s: NodeState, feed: seq<Event>)
    requires s.queue == []
  {
    SafeStart(n, me, s, feed) && total == After(sends, cycles, Begin(n, me, s, feed))
  }

  /** What a turn of the inner loop owes: it may end the cycle, to be left as `l` says, or wait for more. */
  predicate Turned(n: int, me: int, total: Course, sends: seq<Send>, cycles: nat, ends: bool, l: NodeState,
                   feed: seq<Event>)
    requires l.queue == []
  {
    if ends then Starting(n, me, total, sends, cycles, l, feed) else Waiting(n, me, total, sends, cycles, l, feed)
  }

  lemma {:induction false} TurnAgain(n: int, me: int, total: Course, sends: seq<Send>, cycles: nat, s: NodeState,
                                     feed: seq<Event>, more: seq<Send>, ends: bool, l: NodeState, rest: seq<Event>)
    requires s.queue == [] && Waiting(n, me, total, sends, cycles, s, feed)
    requires l.queue == [] && Turned(n, me, Process(n, me, s, feed), more, 0, ends, l, rest)
    ensures Turned(n, me, total, sends + more, cycles, ends, l, rest)
  {
    AfterAfter(sends, cycles, more, 0, if ends then Begin(n, me, l, rest) else Process(n, me, l, rest));
  }

  lemma {:induction false} FeedEnds(n: int, me: int, total: Course, sends: seq<Send>, cycles: nat, s: NodeState,
                                    feed: seq<Event>)
    requires s.queue == [] && Waiting(n, me, total, sends, cycles, s, feed) && feed == []
    ensures total == Course(s, sends, cycles)
  {
    assert sends + [] == sends;
  }

  lemma {:induction false} StartFirst(n: int, me: int, s: NodeState, feed: seq<Event>)
    requires s.queue == [] && SafeStart(n, me, s, feed)
    ensures Starting(n, me, Begin(n, me, s, feed), [], 0, s, feed)
  {
    AfterNothing(Begin(n, me, s, feed));
  }

  lemma {:induction false} StartIs(n: int, me: int, total: Course, sends: seq<Send>, cycles: nat, s: NodeState,
                                   feed: seq<Event>)
    requires s.queue == [] && Starting(n, me, total, sends, cycles, s, feed)
    ensures SafeStart(n, me, s, feed) && total == After(sends, cycles, Begin(n, me, s, feed))
  {
  }

  lemma {:induction false} StartAgain(n: int, me: int, total: Course, sends: seq<Send>, cycles: nat, next: Course,
                                      more: seq<Send>, l: NodeState, feed: seq<Event>, running: bool)
    requires total == After(sends, cycles, next) && l.queue == []
    requires if running then Starting(n, me, next, more, 1, l, feed) else next == Course(l, more, 1)
    ensures if running then Starting(n, me, total, sends + more, cycles + 1, l, feed)
            else total == Course(l, sends + more, cycles + 1)
  {
    if running {
      AfterAfter(sends, cycles, more, 1, Begin(n, me, l, feed));
    }
  }

  /** A new cycle forgets the votes of the last. */
  lemma {:induction false} StartAfresh(n: int, me: int, total: Course, sends: seq<Send>, cycles: nat, l: NodeState,
                                       feed: seq<Event>)
    requires n >= 0 && l.queue == [] && Starting(n, me, total, sends, cycles, l, feed)
    ensures Starting(n, me, total, sends, cycles, FreshCycle(n, l), feed)
  {
    assert FreshCycle(n, FreshCycle(n, l)) == FreshCycle(n, l);
  }

  lemma {:induction false} CrashedDrops(n: int, me: int, s: NodeState, e: Event, rest: seq<Event>)
    requires s.queue == [] && s.crashed && e != RecoverCommand && Safe(n, me, s, [e] + rest)
    ensures Safe(n, me, s, rest) && Process(n, me, s, [e] + rest) == Process(n, me, s, rest)
  {
    ProcessOne(n, me, s, e, rest);
    assert React(n, me, s, e) == Outcome(s, []) && Still(s) == s;
    assert Arrivals([]) + rest == rest;
    AfterNothing(Process(n, me, s, rest));
  }

  /** A crashed node drops everything but the command to recover. */
  lemma {:induction false} CrashedSkips(n: int, me: int, s: NodeState, feed: seq<Event>, k: nat)
    requires s.queue == [] && s.crashed && Safe(n, me, s, feed)
    requires k <= |feed| && forall j | 0 <= j < k :: feed[j] != RecoverCommand
    ensures Safe(n, me, s, feed[k..]) && Process(n, me, s, feed) == Process(n, me, s, feed[k..])
  {
    hide Safe, Process;
    if k == 0 {
      assert feed[0..] == feed;
    } else {
      assert feed == [feed[0]] + feed[1..];
      CrashedDrops(n, me, s, feed[0], feed[1..]);
      CrashedSkips(n, me, s, feed[1..], k - 1);
      assert feed[1..][k - 1..] == feed[k..];
    }
  }

  lemma {:induction false} CrashedRecovers(n: int, me: int, s: NodeState, rest: seq<Event>)
    requires s.queue == [] && s.crashed && Safe(n, me, s, [RecoverCommand] + rest)
    ensures Starting(n, me, Process(n, me, s, [RecoverCommand] + rest), [], 0, s.(crashed := false), rest)
  {
    ProcessOne(n, me, s, RecoverCommand, rest);
    var l := s.(crashed := false);
    var o := Enter(n, me, l);
    assert React(n, me, s, RecoverCommand) == Outcome(o.node, [] + o.sends);
    LeaveThenBegin(n, me, s, RecoverCommand, rest, l, []);
    assert Still(l) == l && Arrivals([]) + rest == rest;
  }

  /** After some silence, a crashed node meets event e. */
  lemma {:induction false} CrashedMeets(n: int, me: int, s: NodeState, feed: seq<Event>, k: nat, e: Event,
                                        rest: seq<Event>)
    requires s.queue == [] && s.crashed && Safe(n, me, s, feed)
    requires k <= |feed| && [e] + rest == feed[k..] && forall j | 0 <= j < k :: feed[j] == Silence
    ensures e == RecoverCommand ==> Starting(n, me, Process(n, me, s, feed), [], 0, s.(crashed := false), rest)
    ensures e != RecoverCommand ==> Safe(n, me, s, rest) && Process(n, me, s, feed) == Process(n, me, s, rest)
  {
    assert feed[k..][0] == e && feed[k..][1..] == rest;
    assert feed[k] == e && feed[k + 1..] == rest;
    if e == RecoverCommand {
      CrashedSkips(n, me, s, feed, k);
      CrashedRecovers(n, me, s, rest);
    } else {
      CrashedSkips(n, me, s, feed, k + 1);
    }
  }

  lemma {:induction false} SilenceTurns(n: int, me: int, s: NodeState, rest: seq<Event>)
    requires s.queue == [] && !s.crashed && Safe(n, me, s, [Silence] + rest)
    ensures var l := Leave(n, s, if s.role == Follower then Some(Candidate) else None);
            && Starting(n, me, Process(n, me, s, [Silence] + rest), [], 0, l, rest)
            && Todo(l, rest) < Todo(s, [Silence] + rest)
  {
    ProcessOne(n, me, s, Silence, rest);
    var l := Leave(n, s, if s.role == Follower then Some(Candidate) else None);
    var o := Enter(n, me, l);
    assert React(n, me, s, Silence) == Outcome(o.node, [] + o.sends);
    LeaveThenBegin(n, me, s, Silence, rest, l, []);
    assert Still(l) == l && Arrivals([]) + rest == rest;
  }
}
