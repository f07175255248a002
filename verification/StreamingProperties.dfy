/** What the frame-streaming service guarantees in every run. */
module StreamingProperties {
  import opened Basics
  import opened Streaming

  // ----- Delivery -----

  /** What a subscriber of an interface, or with an empty name of all, is owed of the given broadcasts. */
  function Owed(frames: seq<Frame>, iface: string): seq<Frame> {
    if iface == "" then frames
    else if frames == [] then []
    else if frames[0].iface == iface then [frames[0]] + Owed(frames[1..], iface)
    else Owed(frames[1..], iface)
  }

  lemma {:induction false} OwedAppend(frames: seq<Frame>, f: Frame, iface: string)
    requires iface != ""
    ensures Owed(frames + [f], iface) == if f.iface == iface then Owed(frames, iface) + [f] else Owed(frames, iface)
  {
    if frames == [] {
      assert frames + [f] == [f] && [f][1..] == [];
    } else {
      assert (frames + [f])[1..] == frames[1..] + [f];
      OwedAppend(frames[1..], f, iface);
    }
  }

  /** The filter lets through exactly what the subscriber is owed. */
  lemma {:induction false} MatchingIsOwed(sent: seq<Frame>, filter: string, from: nat, end: nat)
    requires from <= end <= |sent|
    ensures Matching(sent, filter, from, end) == Owed(sent[from..end], filter)
    decreases end
  {
    if from < end {
      MatchingIsOwed(sent, filter, from, end - 1);
      assert sent[from..end] == sent[from..end - 1] + [sent[end - 1]];
      if filter != "" {
        OwedAppend(sent[from..end - 1], sent[end - 1], filter);
      }
    }
  }

  /** What is owed comes from that interface alone, and nothing of it is left out. */
  lemma {:induction false} OwedMeans(frames: seq<Frame>, iface: string)
    requires iface != ""
    ensures forall f | f in Owed(frames, iface) :: f.iface == iface && f in frames
    ensures forall f | f in frames && f.iface == iface :: f in Owed(frames, iface)
  {
    if frames != [] {
      OwedMeans(frames[1..], iface);
    }
  }

  /**
    The frames written, then at most one in flight or failed, then the queue,
    are what is owed since registration, until removal; a broadcast that is
    still under way may not have come to the subscriber yet.
   */
  predicate Accounted(s: Server, id: nat)
    requires id in s.subs
  {
    var h := s.subs[id];
    && |InFlight(h)| <= 1
    && h.regAt <= |s.sent| && h.endAt <= |s.sent|
    && (h.pc.Exited? ==>
          h.regAt <= h.endAt && h.written + InFlight(h) + h.queue == Owed(s.sent[h.regAt..h.endAt], h.filter))
    && (Registered(h) ==>
          || h.written + InFlight(h) + h.queue == Owed(s.sent[h.regAt..], h.filter)
          || (!s.bc.Idle? && id in s.list && h.regAt < |s.sent| &&
              h.written + InFlight(h) + h.queue == Owed(s.sent[h.regAt..|s.sent| - 1], h.filter)))
  }

  /** In every reachable state nothing of what a subscriber is owed is lost, duplicated or out of order. */
  lemma {:induction false} DeliveryConserved(run: seq<Action>, id: nat)
    requires Exec(run).Some? && id in Exec(run).value.subs
    requires var h := Exec(run).value.subs[id]; Registered(h) || h.pc.Exited?
    ensures Accounted(Exec(run).value, id)
  {
    RunKeeps(run);
    DeliveryOwed(Exec(run).value, id);
  }

  lemma DeliveryOwed(s: Server, id: nat)
    requires Inv(s) && id in s.subs && (Registered(s.subs[id]) || s.subs[id].pc.Exited?)
    ensures Accounted(s, id)
  {
    DeliveryIn(s, id);
    var h := s.subs[id];
    if h.pc.Exited? {
      MatchingIsOwed(s.sent, h.filter, h.regAt, h.endAt);
    } else {
      MatchingToEnd(s.sent, h.filter, h.regAt);
      if h.regAt < |s.sent| { MatchingIsOwed(s.sent, h.filter, h.regAt, |s.sent| - 1); }
    }
  }

  lemma MatchingToEnd(sent: seq<Frame>, filter: string, from: nat)
    requires from <= |sent|
    ensures Matching(sent, filter, from, |sent|) == Owed(sent[from..], filter)
  {
    MatchingIsOwed(sent, filter, from, |sent|);
    assert sent[from..|sent|] == sent[from..];
  }

  lemma DeliveryIn(s: Server, id: nat)
    requires Inv(s) && id in s.subs && (Registered(s.subs[id]) || s.subs[id].pc.Exited?)
    ensures var h := s.subs[id];
            && |InFlight(h)| <= 1
            && h.regAt <= |s.sent| && h.endAt <= |s.sent|
            && (h.pc.Exited? ==> h.regAt <= h.endAt)
            && (h.pc.Exited? ==> h.written + InFlight(h) + h.queue == Matching(s.sent, h.filter, h.regAt, h.endAt))
            && (Registered(h) ==>
                  || h.written + InFlight(h) + h.queue == Matching(s.sent, h.filter, h.regAt, |s.sent|)
                  || (!s.bc.Idle? && s.sent != [] && id in s.list && h.regAt < |s.sent| &&
                      h.written + InFlight(h) + h.queue == Matching(s.sent, h.filter, h.regAt, |s.sent| - 1)))
  {
    var h := s.subs[id];
    assert SubInv(s, id);
    assert h.written + InFlight(h) + h.queue == Matching(s.sent, h.filter, h.regAt, Reached(s, id));
    if Registered(h) {
      assert id in s.list;
      assert Reached(s, id) == if Ahead(s, id) then |s.sent| - 1 else |s.sent|;
    }
  }

  /** The frames written so far are always a prefix of what is owed. */
  lemma WrittenIsPrefix(s: Server, id: nat)
    requires Inv(s) && id in s.subs && !s.subs[id].pc.New?
    ensures s.subs[id].regAt <= |s.sent|
    ensures s.subs[id].written <= Owed(s.sent[s.subs[id].regAt..], s.subs[id].filter)
  {
    WrittenMatches(s, id);
    MatchingToEnd(s.sent, s.subs[id].filter, s.subs[id].regAt);
  }

  lemma WrittenMatches(s: Server, id: nat)
    requires Inv(s) && id in s.subs && !s.subs[id].pc.New?
    ensures s.subs[id].regAt <= |s.sent|
    ensures s.subs[id].written <= Matching(s.sent, s.subs[id].filter, s.subs[id].regAt, |s.sent|)
  {
    var h := s.subs[id];
    assert SubInv(s, id);
    MatchingPrefix(s.sent, h.filter, h.regAt, Reached(s, id), |s.sent|);
    assert h.written <= h.written + InFlight(h) + h.queue;
  }

  lemma {:induction false} MatchingPrefix(sent: seq<Frame>, filter: string, from: nat, mid: nat, end: nat)
    requires mid <= end <= |sent|
    ensures Matching(sent, filter, from, mid) <= Matching(sent, filter, from, end)
    decreases end
  {
    if mid < end {
      MatchingPrefix(sent, filter, from, mid, end - 1);
    }
  }

  // ----- After `done`, and after removal -----

  /** What `done` and removal fix for good. */
  predicate Settled(h: Sub, h': Sub) {
    && (h.done ==> h'.done && h'.doneAt == h.doneAt)
    && (h.pc.Exited? ==> h' == h)
  }

  lemma HandlerStepSettles(id: nat, h: Sub, ok: bool)
    requires h.pc.Pop? ==> h.queue != []
    ensures Settled(h, HandlerStep(id, h, ok))
  {
  }

  lemma DoneIsForever(s: Server, a: Action, id: nat)
    requires Inv(s) && Enabled(s, a) && id in s.subs
    ensures id in Do(s, a).subs && Settled(s.subs[id], Do(s, a).subs[id])
  {
    var h, h' := s.subs[id], Do(s, a).subs[id];
    assert h.pc.Exited? ==> id !in s.list;
    if a.Step? && a.sub == id {
      HandlerStepSettles(id, h, a.ok);
    } else {
      assert h.pc.Exited? ==> h' == h;
    }
  }

  lemma {:induction false} DoneIsForeverInRuns(run: seq<Action>, more: seq<Action>, id: nat)
    requires Exec(run).Some? && Exec(run + more).Some? && id in Exec(run).value.subs
    ensures id in Exec(run + more).value.subs
    ensures Settled(Exec(run).value.subs[id], Exec(run + more).value.subs[id])
  {
    if more == [] {
      assert run + more == run;
    } else {
      var n := |more| - 1;
      assert (run + more)[..|run + more| - 1] == run + more[..n];
      DoneIsForeverInRuns(run, more[..n], id);
      RunKeeps(run + more[..n]);
      DoneIsForever(Exec(run + more[..n]).value, more[n], id);
    }
  }

  /** Once `done` is set the handler writes at most one more frame, however the run goes on. */
  lemma {:induction false} AtMostOneWriteAfterDone(run: seq<Action>, more: seq<Action>, id: nat)
    requires Exec(run).Some? && Exec(run + more).Some? && id in Exec(run).value.subs
    requires Exec(run).value.subs[id].done
    ensures id in Exec(run + more).value.subs
    ensures |Exec(run + more).value.subs[id].written| <= |Exec(run).value.subs[id].written| + 1
  {
    DoneIsForeverInRuns(run, more, id);
    RunKeeps(run);
    RunKeeps(run + more);
    assert SubInv(Exec(run).value, id) && SubInv(Exec(run + more).value, id);
  }

  /** A handler that has left the list receives and writes nothing more. */
  lemma NothingAfterRemoval(run: seq<Action>, more: seq<Action>, id: nat)
    requires Exec(run).Some? && Exec(run + more).Some? && id in Exec(run).value.subs
    requires Exec(run).value.subs[id].pc.Exited?
    ensures id in Exec(run + more).value.subs && Exec(run + more).value.subs[id] == Exec(run).value.subs[id]
  {
    DoneIsForeverInRuns(run, more, id);
  }

  // ----- Wake-ups -----

  predicate BlockedUnnotified(s: Server, id: nat) {
    id in s.subs && s.subs[id].pc.Parked? && !s.subs[id].woken && !Notifying(s, id)
  }

  /**
    A blocked handler with no notification on its way sleeps over a true wait
    predicate if and only if a shutdown notified it between its evaluation of
    the predicate and its blocking. A broadcast can never be missed.
   */
  lemma SleepsOverTruePredicate(run: seq<Action>, id: nat)
    requires Exec(run).Some? && BlockedUnnotified(Exec(run).value, id)
    ensures var h := Exec(run).value.subs[id];
            (h.queue != [] || h.done <==> h.missed) && h.queue == []
  {
    RunKeeps(run);
    assert SubInv(Exec(run).value, id);
  }

  lemma Extend(run: seq<Action>, s: Server, a: Action)
    requires Exec(run) == Some(s) && Enabled(s, a)
    ensures Exec(run + [a]) == Some(Do(s, a))
  {
    assert (run + [a])[..|run + [a]| - 1] == run;
  }

  /** A run that takes the only subscriber to the point just before it blocks. */
  lemma AboutToBlock() returns (run: seq<Action>)
    ensures Exec(run).Some?
    ensures var s := Exec(run).value;
            && s.list == [0] && s.lock.None? && s.bc.Idle? && s.sd.Quiet?
            && 0 in s.subs && s.subs[0].pc.Parking? && s.subs[0].queue == [] && !s.subs[0].done
  {
    var h := Sub("", [], None, false, false, New, [], None, 0, 0, 0, false);
    Extend([], Empty, Open(0, ""));
    var s := Empty.(subs := Empty.subs[0 := h]);
    run := [Open(0, "")];
    Extend(run, s, Step(0, true));
    run, s := run + [Step(0, true)], s.(list := s.list + [0], subs := s.subs[0 := h.(pc := Outer)]);
    Extend(run, s, Step(0, true));
    run, s := run + [Step(0, true)], s.(subs := s.subs[0 := h.(pc := Locking)]);
    Extend(run, s, Step(0, true));
    run, s := run + [Step(0, true)], s.(subs := s.subs[0 := h.(lock := Some(Handler(0)), pc := Test)]);
    Extend(run, s, Step(0, true));
    run := run + [Step(0, true)];
  }

  /** A shutdown without the subscriber's mutex can leave its handler asleep for good. */
  lemma ShutdownCanBeMissed() returns (run: seq<Action>)
    ensures Exec(run).Some?
    ensures var s := Exec(run).value;
            && s.sd.Quiet? && s.bc.Idle? && BlockedUnnotified(s, 0) && s.subs[0].done
            && !Enabled(s, Step(0, true)) && !Enabled(s, Step(0, false))
  {
    run := AboutToBlock();
    var s := Exec(run).value;
    Extend(run, s, BeginShutdown);
    run, s := run + [BeginShutdown], Do(s, BeginShutdown);
    Extend(run, s, SetDone);
    run, s := run + [SetDone], Do(s, SetDone);
    Extend(run, s, NotifyDone);
    run, s := run + [NotifyDone], Do(s, NotifyDone);
    Extend(run, s, SetDone);
    run, s := run + [SetDone], Do(s, SetDone);
    Extend(run, s, Step(0, true));
    run := run + [Step(0, true)];
  }

  // ----- Locks -----

  function Actor(a: Action): Party {
    match a
    case Begin(_) => Broadcaster
    case Visit => Broadcaster
    case Push => Broadcaster
    case BeginShutdown => Stopper
    case SetDone => Stopper
    case NotifyDone => Stopper
    case Open(id, _) => Handler(id)
    case Step(id, _) => Handler(id)
    case Spurious(id) => Handler(id)
  }

  /** The party that holds the mutex `p` needs next. */
  function WaitsFor(s: Server, p: Party): Option<Party> {
    match p
    case Broadcaster =>
      if s.bc.Idle? then s.lock
      else if s.bc.Loop? && s.bc.i < |s.list| && s.list[s.bc.i] in s.subs &&
              Wants(s.subs[s.list[s.bc.i]].filter, s.bc.frame)
      then s.subs[s.list[s.bc.i]].lock
      else None
    case Stopper => if s.sd.Quiet? then s.lock else None
    case Handler(id) =>
      if id !in s.subs then None
      else
        var h := s.subs[id];
        if h.pc.New? || h.pc.Leaving? then s.lock
        else if h.pc.Locking? || h.pc.Relocking? || (h.pc.Parked? && h.woken) then h.lock
        else None
  }

  /** Whoever holds a mutex can act, or waits for a handler. */
  lemma BroadcasterActs(s: Server) returns (a: Action)
    requires Inv(s) && !s.bc.Idle? && WaitsFor(s, Broadcaster).None?
    ensures Enabled(s, a) && Actor(a) == Broadcaster
  {
    a := if s.bc.Hold? then Push else Visit;
  }

  lemma StopperActs(s: Server) returns (a: Action)
    requires Inv(s) && !s.sd.Quiet?
    ensures Enabled(s, a) && Actor(a) == Stopper && WaitsFor(s, Stopper).None?
  {
    a := if s.sd.Mark? then SetDone else NotifyDone;
  }

  lemma HandlerActs(s: Server, id: nat)
    requires Inv(s) && id in s.subs && s.subs[id].lock == Some(Handler(id))
    ensures Enabled(s, Step(id, true)) && WaitsFor(s, Handler(id)).None?
  {
    assert SubInv(s, id);
  }

  /** A mutex is held by whom the state of the threads says. */
  lemma WaitedFor(s: Server, p: Party)
    requires Inv(s) && WaitsFor(s, p).Some?
    ensures var q := WaitsFor(s, p).value;
            && q != p
            && (q.Broadcaster? ==> !s.bc.Idle?)
            && (q.Stopper? ==> !s.sd.Quiet?)
            && (q.Handler? ==> p.Broadcaster? && q.sub in s.subs && s.subs[q.sub].lock == Some(q))
  {
    if p.Handler? { assert SubInv(s, p.sub); }
    if s.bc.Loop? && s.bc.i < |s.list| { assert SubInv(s, s.list[s.bc.i]); }
  }

  /**
    No deadlock: in every reachable state a party that waits for a mutex waits
    for one that can act, or for one that waits for one that can act.
   */
  lemma WaitsEnd(run: seq<Action>, p: Party) returns (a: Action)
    requires Exec(run).Some? && WaitsFor(Exec(run).value, p).Some?
    ensures var s := Exec(run).value;
            var q := WaitsFor(s, p).value;
            var r := WaitsFor(s, q);
            && Enabled(s, a) && q != p
            && (r.None? ==> Actor(a) == q)
            && (r.Some? ==> r.value != p && r.value != q && WaitsFor(s, r.value).None? && Actor(a) == r.value)
  {
    RunKeeps(run);
    var s := Exec(run).value;
    var q := WaitsFor(s, p).value;
    WaitedFor(s, p);
    if q.Stopper? {
      a := StopperActs(s);
    } else if q.Handler? {
      HandlerActs(s, q.sub);
      a := Step(q.sub, true);
    } else if WaitsFor(s, q).None? {
      a := BroadcasterActs(s);
    } else {
      WaitedFor(s, q);
      var r := WaitsFor(s, q).value;
      HandlerActs(s, r.sub);
      a := Step(r.sub, true);
    }
  }
}
