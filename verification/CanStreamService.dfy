/**
  The streaming service as objects, each call taken by itself: a broadcast, a
  shutdown, and the inner loop of a Subscribe handler. How such calls interleave
  is the subject of `Streaming`.
 */
module StreamService {
  import opened Basics
  import opened Streaming

  class Subscriber {
    const filter: string
    var queue: seq<Frame>
    var done: bool

    constructor (filter: string)
      ensures this.filter == filter && queue == [] && !done
    {
      this.filter := filter;
      queue, done := [], false;
    }
  }

  class CanStreamService {
    var subscribers: seq<Subscriber>

    predicate Valid()
      reads this
    {
      Distinct(subscribers)
    }

    constructor ()
      ensures Valid() && subscribers == []
    {
      subscribers := [];
    }

    method Broadcast(frame: Frame)
      requires Valid()
      modifies set s | s in subscribers
      ensures forall s | s in subscribers && (s.filter == "" || s.filter == frame.iface) :: s.queue == old(s.queue) + [frame]
      ensures forall s | s in subscribers && s.filter != "" && s.filter != frame.iface :: s.queue == old(s.queue)
      ensures forall s | s in subscribers :: s.done == old(s.done)
    {
      for i := 0 to |subscribers|
        invariant forall j | 0 <= j < |subscribers| :: subscribers[j].done == old(subscribers[j].done)
        invariant forall j | 0 <= j < i :: subscribers[j].queue ==
                    if Wants(subscribers[j].filter, frame) then old(subscribers[j].queue) + [frame] else old(subscribers[j].queue)
        invariant forall j | i <= j < |subscribers| :: subscribers[j].queue == old(subscribers[j].queue)
      {
        var sub := subscribers[i];
        if sub.filter != "" && sub.filter != frame.iface {
          continue;
        }
        sub.queue := sub.queue + [frame];
      }
    }

    method Shutdown()
      requires Valid()
      modifies set s | s in subscribers
      ensures forall s | s in subscribers :: s.done && s.queue == old(s.queue)
    {
      for i := 0 to |subscribers|
        invariant forall j | 0 <= j < i :: subscribers[j].done
        invariant forall j | 0 <= j < |subscribers| :: subscribers[j].queue == old(subscribers[j].queue)
      {
        subscribers[i].done := true;
      }
    }

    method Register(filter: string) returns (sub: Subscriber)
      requires Valid()
      modifies this
      ensures Valid() && fresh(sub) && sub.filter == filter && sub.queue == [] && !sub.done
      ensures subscribers == old(subscribers) + [sub]
    {
      sub := new Subscriber(filter);
      subscribers := subscribers + [sub];
    }

    method Remove(sub: Subscriber)
      requires Valid()
      modifies this
      ensures Valid() && subscribers == Others(old(subscribers), sub)
    {
      var kept: seq<Subscriber> := [];
      for i := 0 to |subscribers|
        invariant subscribers == old(subscribers)
        invariant kept == Others(subscribers[..i], sub)
      {
        assert subscribers[..i + 1][..i] == subscribers[..i];
        if subscribers[i] != sub {
          kept := kept + [subscribers[i]];
        }
      }
      assert subscribers[..|subscribers|] == subscribers;
      OthersDistinct(subscribers, sub);
      subscribers := kept;
    }

    /**
      Writes the queue until it is empty or the stream is done. While the n-th
      write runs without the lock, `during[n]` happens; beyond those the client
      is gone. Every frame that was queued is written, in order, or is the one
      whose write failed, or is still queued, and so is every one that arrived
      meanwhile.
     */
    method Drain(sub: Subscriber, during: seq<Meanwhile>) returns (written: seq<Frame>, failed: Option<Frame>)
      modifies sub
      ensures |written| <= |during|
      ensures var n := |written| + (if failed.Some? then 1 else 0);
              && Taken(written, failed) + sub.queue == old(sub.queue) + Arrived(during, n)
              && sub.done == (old(sub.done) || failed.Some? || Stopped(during, n))
      ensures !sub.done ==> sub.queue == []
      ensures old(sub.done) ==> written == [] && failed.None?
      ensures failed.Some? ==> |written| == |during| || !during[|written|].accepted
    {
      written, failed := [], None;
      ghost var n := 0;
      while sub.queue != [] && !sub.done
        invariant n == |written| + (if failed.Some? then 1 else 0) && |written| <= |during|
        invariant failed.Some? ==> sub.done && (|written| == |during| || !during[|written|].accepted)
        invariant Taken(written, failed) + sub.queue == old(sub.queue) + Arrived(during, n)
        invariant sub.done == (old(sub.done) || failed.Some? || Stopped(during, n))
        invariant old(sub.done) ==> n == 0
        decreases |during| - |written|, !sub.done
      {
        var frame, k := sub.queue[0], |written|;
        ghost var rest, arrived := sub.queue[1..], if k < |during| then during[k].arrived else [];
        assert sub.queue == [frame] + rest;
        OneMore(old(sub.queue), written, frame, rest, arrived, Arrived(during, n));
        sub.queue := sub.queue[1..];
        if k < |during| {
          sub.queue := sub.queue + during[k].arrived;
          sub.done := during[k].stopped;
        }
        if k < |during| && during[k].accepted {
          written := written + [frame];
        } else {
          failed := Some(frame);
          sub.done := true;
        }
        n := n + 1;
        assert sub.queue == rest + arrived;
      }
    }
  }

  /** The list without one subscriber, in the same order. */
  function Others(list: seq<Subscriber>, sub: Subscriber): seq<Subscriber> {
    if list == [] then []
    else if list[|list| - 1] == sub then Others(list[..|list| - 1], sub)
    else Others(list[..|list| - 1], sub) + [list[|list| - 1]]
  }

  predicate Distinct(list: seq<Subscriber>) {
    forall i, j | 0 <= i < j < |list| :: list[i] != list[j]
  }

  lemma {:induction false} OthersDistinct(list: seq<Subscriber>, sub: Subscriber)
    requires Distinct(list)
    ensures forall s :: s in Others(list, sub) <==> s in list && s != sub
    ensures Distinct(Others(list, sub))
  {
    if list != [] {
      var shorter, last := list[..|list| - 1], list[|list| - 1];
      var r := Others(shorter, sub);
      OthersDistinct(shorter, sub);
      assert forall s :: s in list <==> s in shorter || s == last;
      assert last !in shorter && last !in r;
      if last != sub {
        assert Others(list, sub) == r + [last];
        assert Distinct(r + [last]) by {
          assert forall i | 0 <= i < |r| :: r[i] in r;
        }
      }
    }
  }

  /** What happens while a write runs: frames are broadcast, the stream may be shut down, and the client may refuse. */
  datatype Meanwhile = Meanwhile(arrived: seq<Frame>, stopped: bool, accepted: bool)

  /** What was taken from the queue: the frames written, and the one whose write failed. */
  function Taken(written: seq<Frame>, failed: Option<Frame>): seq<Frame> {
    if failed.Some? then written + [failed.value] else written
  }

  lemma OneMore(before: seq<Frame>, written: seq<Frame>, frame: Frame, rest: seq<Frame>, arrived: seq<Frame>, total: seq<Frame>)
    requires written + ([frame] + rest) == before + total
    ensures (written + [frame]) + (rest + arrived) == before + (total + arrived)
  {
    assert (written + [frame]) + (rest + arrived) == (written + ([frame] + rest)) + arrived;
  }

  /** What arrived during the first `n` writes. */
  function Arrived(during: seq<Meanwhile>, n: nat): seq<Frame> {
    if n == 0 then [] else Arrived(during, n - 1) + (if n <= |during| then during[n - 1].arrived else [])
  }

  predicate Stopped(during: seq<Meanwhile>, n: nat) {
    exists k :: 0 <= k < n && k < |during| && during[k].stopped
  }
}
