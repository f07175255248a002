/** What the frame-streaming service gets done when its threads are left to run. */
module StreamingProgress {
  import opened Basics
  import opened Streaming
  import opened StreamingProperties

  // ----- Shutdown -----

  /** A shutdown under way has marked everyone it has visited. */
  predicate MarkedSoFar(s: Server) {
    var n := if s.sd.Mark? then s.sd.i else if s.sd.Notify? then s.sd.i + 1 else 0;
    forall j | 0 <= j < n && j < |s.list| :: s.list[j] in s.subs && s.subs[s.list[j]].done
  }

  /** While a shutdown holds the list mutex, the list stays and only the next subscriber is marked. */
  lemma ShutdownMoves(s: Server, a: Action)
    requires Inv(s) && Enabled(s, a) && !Do(s, a).sd.Quiet?
    ensures var s' := Do(s, a);
            && s'.list == s.list
            && (s'.sd == s.sd || (a.BeginShutdown? && s'.sd == Mark(0)) || (s.sd.Notify? && s'.sd == Mark(s.sd.i + 1))
                || (s.sd.Mark? && s.sd.i < |s.list| && s'.sd == Notify(s.sd.i) &&
                    s.list[s.sd.i] in s'.subs && s'.subs[s.list[s.sd.i]].done))
  {
  }

  lemma MarkedStep(s: Server, a: Action)
    requires Inv(s) && MarkedSoFar(s) && Enabled(s, a)
    ensures MarkedSoFar(Do(s, a))
  {
    var s' := Do(s, a);
    if !s'.sd.Quiet? {
      ShutdownMoves(s, a);
      forall j | 0 <= j < |s.list| && s.list[j] in s.subs && s.subs[s.list[j]].done
        ensures s.list[j] in s'.subs && s'.subs[s.list[j]].done
      {
        DoneIsForever(s, a, s.list[j]);
      }
    }
  }

  lemma {:induction false} MarkedInRuns(run: seq<Action>)
    requires Exec(run).Some?
    ensures Inv(Exec(run).value) && MarkedSoFar(Exec(run).value)
  {
    RunKeeps(run);
    if run != [] {
      MarkedInRuns(run[..|run| - 1]);
      MarkedStep(Exec(run[..|run| - 1]).value, run[|run| - 1]);
    }
  }

  /** When a shutdown ends, every subscriber in the list is done. */
  lemma {:induction false} ShutdownReachesAll(run: seq<Action>, a: Action)
    requires Exec(run).Some? && Enabled(Exec(run).value, a)
    requires !Exec(run).value.sd.Quiet? && Do(Exec(run).value, a).sd.Quiet?
    ensures var t := Do(Exec(run).value, a);
            forall j | 0 <= j < |t.list| :: t.list[j] in t.subs && t.subs[t.list[j]].done
  {
    MarkedInRuns(run);
  }

  // ----- Handlers -----

  /** The handler has nothing more to do: it sleeps with an empty queue, or is gone. */
  predicate Rests(h: Sub) {
    h.pc.Exited? || (!h.done && h.pc.Parked? && !h.woken && h.queue == [])
  }

  /** It was told of the end between its test and its blocking, and will not notice. */
  predicate Overslept(h: Sub) {
    h.done && (h.pc.Parking? || (h.pc.Parked? && !h.woken))
  }

  /** How far the handler is from resting. */
  function Distance(h: Sub): nat {
    if h.done then
      match h.pc
      case New => 8
      case Pop => 8
      case Writing(_) => 7
      case Locking => 7
      case Parked => 7
      case Relocking => 6
      case Test => 6
      case Inner => 5
      case Outer => 4
      case Leaving => 2
      case _ => 0
    else
      10 * |h.queue| + if h.queue != [] then
        match h.pc
        case New => 9
        case Outer => 8
        case Locking => 7
        case Parked => 7
        case Test => 6
        case Writing(_) => 6
        case Relocking => 5
        case Inner => 4
        case Pop => 3
        case _ => 0
      else
        match h.pc
        case Writing(_) => 8
        case Relocking => 7
        case Inner => 6
        case New => 6
        case Outer => 5
        case Locking => 4
        case Parked => if h.woken then 4 else 0
        case Test => 3
        case Parking => 2
        case _ => 0
  }

  lemma HandlerStepNearer(id: nat, h: Sub)
    requires DoneInv(h) && !h.pc.New? && !h.pc.Leaving? && !Rests(h) && !Overslept(h)
    requires h.pc.Parking? || (h.pc.Parked? && !h.woken) ==> h.queue == []
    requires h.pc.Parked? ==> h.woken
    ensures var h' := HandlerStep(id, h, true);
            Nearer(h, h')
  {
  }

  predicate Quiet(s: Server) {
    s.bc.Idle? && s.sd.Quiet?
  }

  lemma JoinNearer(s: Server, id: nat)
    requires Inv(s) && Quiet(s) && id in s.subs && (s.subs[id].pc.New? || s.subs[id].pc.Leaving?)
    ensures Enabled(s, Step(id, true))
    ensures var t := Do(s, Step(id, true));
            Quiet(t) && id in t.subs && t.sent == s.sent && Nearer(s.subs[id], t.subs[id])
  {
    assert SubInv(s, id);
  }

  lemma WorkNearer(s: Server, id: nat)
    requires Inv(s) && Quiet(s) && id in s.subs && !Rests(s.subs[id]) && !Overslept(s.subs[id])
    requires !s.subs[id].pc.New? && !s.subs[id].pc.Leaving?
    ensures Enabled(s, Step(id, true))
    ensures var t := Do(s, Step(id, true));
            Quiet(t) && id in t.subs && t.sent == s.sent && Nearer(s.subs[id], t.subs[id])
  {
    assert SubInv(s, id);
    HandlerStepNearer(id, s.subs[id]);
    assert Do(s, Step(id, true)) == WithSub(s, id, HandlerStep(id, s.subs[id], true));
  }

  predicate Nearer(h: Sub, h': Sub) {
    Distance(h') < Distance(h) && !Overslept(h') && h'.done == h.done && (h.failed.None? ==> h'.failed.None?)
  }

  /** With no broadcast and no shutdown under way, the handler can take a step, and comes nearer to resting. */
  lemma StepNearer(run: seq<Action>, s: Server, id: nat) returns (t: Server)
    requires Exec(run) == Some(s) && Inv(s) && Quiet(s) && id in s.subs && !Rests(s.subs[id]) && !Overslept(s.subs[id])
    ensures Exec(run + [Step(id, true)]) == Some(t)
    ensures Inv(t) && Quiet(t) && id in t.subs && t.sent == s.sent && Nearer(s.subs[id], t.subs[id])
  {
    if s.subs[id].pc.New? || s.subs[id].pc.Leaving? {
      JoinNearer(s, id);
    } else {
      WorkNearer(s, id);
    }
    t := Do(s, Step(id, true));
    StepKeeps(s, Step(id, true));
    Extend(run, s, Step(id, true));
  }

  /** `all` goes on from `run` with steps of the handler alone. */
  predicate GoesOn(run: seq<Action>, all: seq<Action>, id: nat) {
    run <= all && forall k | |run| <= k < |all| :: all[k] == Step(id, true)
  }

  lemma {:induction false} RunsToRest(run: seq<Action>, s: Server, id: nat) returns (all: seq<Action>, t: Server)
    requires Exec(run) == Some(s) && Inv(s) && Quiet(s) && id in s.subs && !Overslept(s.subs[id])
    ensures GoesOn(run, all, id) && Exec(all) == Some(t)
    ensures Inv(t) && Quiet(t) && id in t.subs && t.sent == s.sent && Rests(t.subs[id])
    ensures t.subs[id].done == s.subs[id].done && (s.subs[id].failed.None? ==> t.subs[id].failed.None?)
    decreases Distance(s.subs[id])
  {
    if Rests(s.subs[id]) {
      all, t := run, s;
    } else {
      var next := StepNearer(run, s, id);
      all, t := RunsToRest(run + [Step(id, true)], next, id);
      StillGoesOn(run, all, id);
    }
  }

  lemma StillGoesOn(run: seq<Action>, all: seq<Action>, id: nat)
    requires GoesOn(run + [Step(id, true)], all, id)
    ensures GoesOn(run, all, id)
  {
    assert all[|run|] == (run + [Step(id, true)])[|run|];
  }

  lemma RestedHasAll(s: Server, id: nat)
    requires Inv(s) && Quiet(s) && id in s.subs && Rests(s.subs[id]) && !s.subs[id].done && s.subs[id].failed.None?
    ensures s.subs[id].regAt <= |s.sent| && s.subs[id].written == Owed(s.sent[s.subs[id].regAt..], s.subs[id].filter)
  {
    assert SubInv(s, id);
    DeliveryOwed(s, id);
    assert s.subs[id].written + [] + [] == s.subs[id].written;
  }

  /**
    Progress: from every reachable state in which no broadcast and no shutdown
    is under way, the handler's own steps bring a subscriber that is not done
    to sleep with everything it is owed written to its client.
   */
  lemma {:induction false} EverythingOwedIsWritten(run: seq<Action>, id: nat) returns (all: seq<Action>)
    requires Exec(run).Some? && Quiet(Exec(run).value) && id in Exec(run).value.subs
    requires var h := Exec(run).value.subs[id]; !h.done && h.failed.None?
    ensures GoesOn(run, all, id) && Exec(all).Some? && id in Exec(all).value.subs
    ensures var t := Exec(all).value;
            var h := t.subs[id];
            && t.sent == Exec(run).value.sent
            && h.regAt <= |t.sent| && h.written == Owed(t.sent[h.regAt..], h.filter)
  {
    RunKeeps(run);
    var t;
    all, t := RunsToRest(run, Exec(run).value, id);
    RestedHasAll(t, id);
  }

  /** And a subscriber that is done, unless it overslept, leaves the list. */
  lemma {:induction false} DoneHandlersLeave(run: seq<Action>, id: nat) returns (all: seq<Action>)
    requires Exec(run).Some? && Quiet(Exec(run).value) && id in Exec(run).value.subs
    requires Exec(run).value.subs[id].done && !Overslept(Exec(run).value.subs[id])
    ensures GoesOn(run, all, id) && Exec(all).Some? && id in Exec(all).value.subs
    ensures var t := Exec(all).value; t.subs[id].pc.Exited? && id !in t.list
  {
    RunKeeps(run);
    var t;
    all, t := RunsToRest(run, Exec(run).value, id);
  }
}
