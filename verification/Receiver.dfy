/** The receiver with its queue of messages put back: the queue is served first, the network second. */
module Receivers {
  import opened Types
  import opened DriverSpec

  /** The node messages among the events of a queue. */
  function Packets(es: seq<Event>): seq<Packet> {
    if es == [] then [] else (if es[0].Arrives? then [es[0].p] else []) + Packets(es[1..])
  }

  lemma {:induction false} PacketsAppend(es: seq<Event>, p: Packet)
    ensures Packets(es + [Arrives(p)]) == Packets(es) + [p]
  {
    if es == [] {
      assert es + [Arrives(p)] == [Arrives(p)];
    } else {
      assert (es + [Arrives(p)])[1..] == es[1..] + [Arrives(p)];
      PacketsAppend(es[1..], p);
    }
  }

  class Receiver {
    var reinjected: seq<Event>
    /** What the network and the timers will bring, in the order in which it comes. */
    var network: seq<Event>

    constructor (feed: seq<Event>)
      ensures reinjected == [] && network == feed
    {
      reinjected, network := [], feed;
    }

    ghost function Pending(): seq<Event>
      reads this
    {
      reinjected + network
    }

    method Reinject(e: Event)
      modifies this`reinjected
      ensures reinjected == old(reinjected) + [e]
    {
      reinjected := reinjected + [e];
    }

    /** get_rpc_timeout: Silence stands for the null that a timeout returns. */
    method GetTimeout() returns (e: Event)
      requires reinjected + network != []
      modifies this
      ensures [e] + Pending() == old(Pending())
      ensures old(reinjected) != [] ==> [e] + reinjected == old(reinjected) && network == old(network)
      ensures old(reinjected) == [] ==> reinjected == [] && [e] + network == old(network)
    {
      if reinjected == [] {
        e := network[0];
        network := network[1..];
      } else {
        e := reinjected[0];
        reinjected := reinjected[1..];
      }
    }

    /** get_rpc_timeout with no time to wait: None when no message is there yet. */
    method Poll() returns (e: Option<Event>)
      modifies this
      ensures e.None? ==> unchanged(this) && (Pending() == [] || Pending()[0] == Silence)
      ensures e.Some? ==> [e.value] + Pending() == old(Pending())
      ensures e.Some? && old(reinjected) != [] ==> [e.value] + reinjected == old(reinjected)
      ensures e.Some? && old(reinjected) == [] ==> reinjected == []
    {
      e := None;
      if reinjected != [] || (network != [] && network[0] != Silence) {
        var first := GetTimeout();
        e := Some(first);
      }
    }

    /** get_rpc_blocking: the first message that comes, or None when the feed holds none. */
    method GetBlocking() returns (e: Option<Event>, ghost skipped: nat)
      modifies this
      ensures |reinjected| <= |old(reinjected)|
      ensures skipped <= |old(Pending())| && forall k | 0 <= k < skipped :: old(Pending())[k] == Silence
      ensures e.None? ==> Pending() == [] && skipped == |old(Pending())|
      ensures e.Some? ==> e.value != Silence && [e.value] + Pending() == old(Pending())[skipped..]
    {
      e, skipped := None, 0;
      while e.None? && reinjected + network != []
        invariant |reinjected| <= |old(reinjected)|
        invariant skipped <= |old(Pending())| && forall k | 0 <= k < skipped :: old(Pending())[k] == Silence
        invariant e.None? ==> Pending() == old(Pending())[skipped..]
        invariant e.Some? ==> e.value != Silence && [e.value] + Pending() == old(Pending())[skipped..]
        decreases |reinjected| + |network|, if e.None? then 1 else 0
      {
        var first := GetTimeout();
        assert old(Pending())[skipped] == first;
        if first == Silence {
          skipped := skipped + 1;
        } else {
          e := Some(first);
        }
      }
    }
  }
}
