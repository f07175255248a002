/** What becomes of removed actions, and of commands that name an action by its position. */
module ActionRemoval {
  import opened Basics
  import opened Scheduling
  import opened ActionRuns
  import opened ActionLog

  // ----- After removal -----

  /** How often an action has fired. */
  function Firings(sends: seq<Send>, uid: nat): nat {
    if sends == [] then 0
    else Firings(sends[..|sends| - 1], uid) + (if sends[|sends| - 1].uid == uid then 1 else 0)
  }

  /** What a destroyed action has fired, and what of it is still queued. */
  function Account(s: Loop, uid: nat): nat {
    Firings(s.sends, uid) + Count(s.queue, uid)
  }

  lemma FiringsAppend(sends: seq<Send>, d: Send, uid: nat)
    ensures Firings(sends + [d], uid) == Firings(sends, uid) + (if d.uid == uid then 1 else 0)
  {
    assert (sends + [d])[..|sends|] == sends;
  }

  lemma GoneStays(s: Loop, x: Step, atomic: bool)
    requires Enabled(s, x)
    ensures forall u | u in Uids(s.held.gone) :: u in Uids(Do(s, x, atomic).held.gone)
  {
    var before, after := Uids(s.held.gone), Uids(Do(s, x, atomic).held.gone);
    assert |before| <= |after| && forall k | 0 <= k < |before| :: after[k] == before[k];
  }

  lemma Unlisted(s: Loop, uid: nat)
    requires IdentityInv(s) && uid in Uids(s.held.gone)
    ensures uid !in Uids(s.held.actions) && forall i | 0 <= i < |s.held.actions| :: s.held.actions[i].uid != uid
  {
    forall i | 0 <= i < |s.held.actions| ensures s.held.actions[i].uid != uid {
      assert Uids(s.held.actions)[i] == s.held.actions[i].uid;
      assert s.held.actions[i].uid in Uids(s.held.actions);
    }
  }

  lemma FireAccount(s: Loop, v: nat, encoded: seq<bv8>, atomic: bool, uid: nat)
    requires forall i | 0 <= i < |s.held.actions| :: s.held.actions[i].uid != uid
    requires v == uid ==> Pending(s.held.gone, uid)
    ensures Account(Fire(s, v, encoded, atomic), uid) == Account(s, uid) + (if v == uid then 1 else 0)
  {
    if Pending(s.held.actions, v) {
      CountWithout(s.queue, v, uid);
      FiringsAppend(s.sends, SendOf(s.held.actions[Position(s.held.actions, v)], s.now, false), uid);
    } else if Pending(s.held.gone, v) {
      FiringsAppend(s.sends, SendOf(s.held.gone[Position(s.held.gone, v)], s.now, true), uid);
    }
  }

  lemma CommandAccount(s: Loop, c: Command, atomic: bool, uid: nat)
    requires forall i | 0 <= i < |s.held.actions| :: s.held.actions[i].uid != uid
    ensures Account(Commanded(s, c, atomic), uid) == Account(s, uid)
  {
    var v := CancelledBy(s.held.actions, c);
    if v.Some? {
      CountWithout(s.queue, v.value, uid);
    }
  }

  lemma RunAccount(s: Loop, encoded: seq<bv8>, atomic: bool, uid: nat)
    requires Inv(s, atomic) && s.queue != [] && uid in Uids(s.held.gone)
    ensures Account(Do(s, RunNext(encoded), atomic), uid) == Account(s, uid)
  {
    var t, h := s.(queue := s.queue[1..]), s.queue[0];
    Unlisted(s, uid);
    if h.Run? {
      CommandAccount(t, h.command, atomic, uid);
    } else {
      if h.uid == uid {
        QueuedIsPending(s, uid);
      }
      FireAccount(t, h.uid, encoded, atomic, uid);
    }
  }

  /** A step neither queues a completion of a destroyed action nor drops one. */
  lemma AccountStep(s: Loop, x: Step, atomic: bool, uid: nat)
    requires Inv(s, atomic) && Enabled(s, x) && uid in Uids(s.held.gone)
    ensures Account(Do(s, x, atomic), uid) == Account(s, uid)
  {
    match x
    case Create(kind, target, payload, startPaused) =>
      CountAppend(s.queue, Run(Add(Constructed(s.nextUid, kind, target, payload, s.now), startPaused)), uid);
    case Post(c) =>
      CountAppend(s.queue, Run(c), uid);
    case RunNext(encoded) =>
      RunAccount(s, encoded, atomic, uid);
    case Expire(i) =>
      Unlisted(s, uid);
      CountAppend(s.queue, Completion(s.held.actions[i].uid), uid);
    case Tick(d) =>
      CountAged(s.queue, Do(s, x, atomic).queue, d, uid);
  }

  lemma QueuedIsPending(s: Loop, uid: nat)
    requires IdentityInv(s) && CountInv(s) && uid in Uids(s.held.gone) && Count(s.queue, uid) > 0
    ensures Pending(s.held.gone, uid)
  {
    Membership(s.held.gone, uid);
    Membership(s.held.actions, uid);
    assert Count(s.queue, uid) == Ready(s.held, uid);
  }

  /** In every continuation, a destroyed action fires exactly the completions that were queued, in so far as they are run. */
  lemma {:induction false} GoneFiresWhatWasQueued(s: Loop, more: seq<Step>, atomic: bool, uid: nat)
    requires Inv(s, atomic) && Exec(s, more, atomic).Some? && uid in Uids(s.held.gone)
    ensures var t := Exec(s, more, atomic).value;
            && Firings(t.sends, uid) + Count(t.queue, uid) == Firings(s.sends, uid) + Count(s.queue, uid)
            && uid in Uids(t.held.gone) && uid !in Uids(t.held.actions)
  {
    if more == [] {
      Unlisted(s, uid);
    } else {
      var t, x := Exec(s, more[..|more| - 1], atomic).value, more[|more| - 1];
      GoneFiresWhatWasQueued(s, more[..|more| - 1], atomic, uid);
      RunKeeps(s, more[..|more| - 1], atomic);
      AccountStep(t, x, atomic, uid);
      GoneStays(t, x, atomic);
      StepKeeps(t, x, atomic);
      Unlisted(Do(t, x, atomic), uid);
    }
  }

  /** Running a removal leaves the action's completions in the queue, unless cancelling is atomic. */
  lemma RemovalLeaves(s: Loop, idx: nat, atomic: bool)
    requires Inv(s, atomic) && s.queue != [] && s.queue[0] == Run(Remove(idx)) && idx < |s.held.actions|
    ensures var a, t := s.held.actions[idx], Do(s, RunNext([]), atomic);
            && Inv(t, atomic) && t.sends == s.sends && a.uid in Uids(t.held.gone)
            && Count(t.queue, a.uid) == if atomic then 0 else a.timer.ready
  {
    var a, t := s.held.actions[idx], Do(s, RunNext([]), atomic);
    StepKeeps(s, RunNext([]), atomic);
    UidsDropped(s.held, idx, atomic);
    ReadyDropped(s.held, idx, atomic, QueuedUids(s.queue), s.nextUid, a.uid);
    assert Count(t.queue, a.uid) == Ready(t.held, a.uid);
  }

  /**
    A removed action never comes back. Once its completions have been run, it
    has fired again exactly as often as completions of it were queued when it
    was removed, and not at all with atomic cancellation.
   */
  lemma {:induction false} RemovedFiresIffQueued(run: seq<Step>, idx: nat, more: seq<Step>, atomic: bool)
    requires Exec(Initial, run, atomic).Some?
    requires var s := Exec(Initial, run, atomic).value;
             && s.queue != [] && s.queue[0] == Run(Remove(idx)) && idx < |s.held.actions|
             && Exec(Do(s, RunNext([]), atomic), more, atomic).Some?
    ensures var s := Exec(Initial, run, atomic).value;
            var t, a := Exec(Do(s, RunNext([]), atomic), more, atomic).value, s.held.actions[idx];
            && a.uid !in Uids(t.held.actions)
            && Firings(t.sends, a.uid) + Count(t.queue, a.uid) == Firings(s.sends, a.uid) + (if atomic then 0 else a.timer.ready)
            && (Count(t.queue, a.uid) == 0 ==>
                  (Firings(t.sends, a.uid) > Firings(s.sends, a.uid) <==> !atomic && a.timer.ready > 0))
  {
    RunKeeps(Initial, run, atomic);
    var s := Exec(Initial, run, atomic).value;
    RemovalLeaves(s, idx, atomic);
    GoneFiresWhatWasQueued(Do(s, RunNext([]), atomic), more, atomic, s.held.actions[idx].uid);
  }

  lemma NothingQueued(s: Loop, atomic: bool, uid: nat)
    requires atomic && Inv(s, atomic) && uid in Uids(s.held.gone)
    ensures Count(s.queue, uid) == 0
  {
    Membership(s.held.gone, uid);
    Membership(s.held.actions, uid);
    Unlisted(s, uid);
    assert GoneInv(s.held.gone[Position(s.held.gone, uid)], atomic);
    assert Count(s.queue, uid) == Ready(s.held, uid);
  }

  /** With atomic cancellation a removed or finished action never comes back and never sends again. */
  lemma {:induction false} GoneForever(run: seq<Step>, more: seq<Step>, atomic: bool, uid: nat)
    requires atomic && Exec(Initial, run, atomic).Some? && Exec(Exec(Initial, run, atomic).value, more, atomic).Some?
    requires uid in Uids(Exec(Initial, run, atomic).value.held.gone)
    ensures var s := Exec(Initial, run, atomic).value;
            var t := Exec(s, more, atomic).value;
            uid !in Uids(t.held.actions) && Firings(t.sends, uid) == Firings(s.sends, uid)
  {
    RunKeeps(Initial, run, atomic);
    GoneSilent(Exec(Initial, run, atomic).value, more, atomic, uid);
  }

  lemma GoneSilent(s: Loop, more: seq<Step>, atomic: bool, uid: nat)
    requires atomic && Inv(s, atomic) && Exec(s, more, atomic).Some? && uid in Uids(s.held.gone)
    ensures var t := Exec(s, more, atomic).value;
            uid !in Uids(t.held.actions) && Firings(t.sends, uid) == Firings(s.sends, uid)
  {
    NothingQueued(s, atomic, uid);
    GoneFiresWhatWasQueued(s, more, atomic, uid);
    RunKeeps(s, more, atomic);
    NothingQueued(Exec(s, more, atomic).value, atomic, uid);
  }

  lemma {:induction false} Prepend(s: Loop, x: Step, more: seq<Step>, atomic: bool)
    requires Enabled(s, x)
    ensures Exec(s, [x] + more, atomic) == Exec(Do(s, x, atomic), more, atomic)
  {
    var all := [x] + more;
    if more == [] {
      assert all == [x] && all[..0] == [];
      assert Exec(s, all[..0], atomic) == Some(s);
    } else {
      var n := |more| - 1;
      assert all[..|all| - 1] == [x] + more[..n] && all[|all| - 1] == more[n];
      Prepend(s, x, more[..n], atomic);
    }
  }

  lemma QueueGetsShorter(s: Loop, atomic: bool)
    requires s.queue != []
    ensures |Do(s, RunNext([]), atomic).queue| < |s.queue|
  {
  }

  /** From every state the loop can run its queue to the end, so that nothing is left to fire. */
  lemma {:induction false} QueueRunsOut(s: Loop, atomic: bool) returns (more: seq<Step>)
    ensures Exec(s, more, atomic).Some? && Exec(s, more, atomic).value.queue == []
    decreases |s.queue|
  {
    more := [];
    if s.queue != [] {
      QueueGetsShorter(s, atomic);
      var rest := QueueRunsOut(Do(s, RunNext([]), atomic), atomic);
      Prepend(s, RunNext([]), rest, atomic);
      more := [RunNext([])] + rest;
    }
  }

  // ----- Commands by index -----

  /** The position from which the step takes an action out of the list. */
  function RemovesAt(s: Loop, x: Step): Option<nat>
    requires Enabled(s, x)
  {
    if !x.RunNext? then None
    else match s.queue[0]
      case Run(c) => if c.Remove? && c.idx < |s.held.actions| then Some(c.idx) else None
      case Completion(uid) =>
        var i := Position(s.held.actions, uid);
        if Pending(s.held.actions, uid) && s.held.actions[i].kind.Single? then Some(i) else None
  }

  /** No step of the run took out an action at position `idx` or below. */
  ghost predicate Undisturbed(s: Loop, run: seq<Step>, atomic: bool, idx: nat)
    requires Exec(s, run, atomic).Some?
    decreases |run|
  {
    run != [] ==>
      var shorter, x := run[..|run| - 1], run[|run| - 1];
      var r := RemovesAt(Exec(s, shorter, atomic).value, x);
      Undisturbed(s, shorter, atomic, idx) && (r.Some? ==> r.value > idx)
  }

  /** What a step does to the positions: one entry is taken out, or one is appended from the queue, or none changes. */
  predicate Moved(before: seq<nat>, after: seq<nat>, r: Option<nat>, queued: seq<nat>) {
    if r.Some? then r.value < |before| && after == before[..r.value] + before[r.value + 1..]
    else after == before || (queued != [] && after == before + [queued[0]])
  }

  lemma CommandMoves(l: Lists, c: Command, now: nat, atomic: bool, queued: seq<nat>)
    requires c.Add? ==> queued != [] && queued[0] == c.action.uid
    ensures Moved(Uids(l.actions), Uids(Ran(l, c, now, atomic).actions),
                  if c.Remove? && c.idx < |l.actions| then Some(c.idx) else None, queued)
  {
    var after := Ran(l, c, now, atomic).actions;
    if c.Add? {
      assert Uids(after) == Uids(l.actions) + [c.action.uid];
    } else if c.idx < |l.actions| && c.Remove? {
      UidsDropped(l, c.idx, atomic);
    } else {
      assert Uids(after) == Uids(l.actions);
    }
  }

  lemma CompletionMoves(l: Lists, i: nat, encoded: seq<bv8>, now: nat, atomic: bool, queued: seq<nat>)
    requires i < |l.actions| && l.actions[i].timer.ready > 0
    ensures Moved(Uids(l.actions), Uids(Completed(l, i, encoded, now, atomic).actions),
                  if l.actions[i].kind.Single? then Some(i) else None, queued)
  {
    var fired := Fired(l.actions[i], encoded, now, atomic);
    UidsUpdated(l, i, fired);
    if l.actions[i].kind.Single? {
      UidsDropped(Updated(l, i, fired), i, atomic);
    }
  }

  lemma PositionsAfter(s: Loop, x: Step, atomic: bool)
    requires Enabled(s, x)
    ensures Moved(Uids(s.held.actions), Uids(Do(s, x, atomic).held.actions), RemovesAt(s, x), QueuedUids(s.queue))
  {
    var l := s.held;
    if x.RunNext? && s.queue[0].Run? {
      CommandMoves(l, s.queue[0].command, s.now, atomic, QueuedUids(s.queue));
    } else if x.RunNext? && Pending(l.actions, s.queue[0].uid) {
      CompletionMoves(l, Position(l.actions, s.queue[0].uid), x.encoded, s.now, atomic, QueuedUids(s.queue));
    } else {
      assert Uids(Do(s, x, atomic).held.actions) == Uids(l.actions);
    }
  }

  /** The identity is at position `idx`, or at none from there on and in none of the queued additions. */
  predicate Tracked(list: seq<nat>, queued: seq<nat>, idx: nat, uid: nat, still: bool) {
    if still then idx < |list| && list[idx] == uid
    else uid !in queued && forall j | idx <= j < |list| :: list[j] != uid
  }

  lemma TrackMove(before: seq<nat>, gone: seq<nat>, queued: seq<nat>, next: nat, after: seq<nat>, r: Option<nat>,
                  idx: nat, uid: nat, still: bool)
    requires Identities(before, gone, queued, next) && Moved(before, after, r, queued) && Tracked(before, queued, idx, uid, still)
    ensures Tracked(after, queued, idx, uid, still && (r.Some? ==> r.value > idx))
  {
    if still {
      assert before[idx] in before;
    }
    if r.Some? {
      assert forall k | 0 <= k < |after| :: after[k] == before[if k < r.value then k else k + 1];
    } else if queued != [] {
      assert queued[0] in queued;
    }
  }

  /** Where the action seen at `idx` is after the run: still there, or further up, or out of the list. */
  lemma {:induction false} TrackIndex(s: Loop, run: seq<Step>, atomic: bool, idx: nat)
    requires Inv(s, atomic) && Exec(s, run, atomic).Some? && idx < |s.held.actions|
    ensures var t := Exec(s, run, atomic).value;
            && Tracked(Uids(t.held.actions), QueuedUids(t.queue), idx, s.held.actions[idx].uid, Undisturbed(s, run, atomic, idx))
            && s.held.actions[idx].uid < t.nextUid
  {
    var uid := s.held.actions[idx].uid;
    if run == [] {
      assert Uids(s.held.actions)[idx] == uid && uid in Uids(s.held.actions);
    } else {
      var shorter, x := run[..|run| - 1], run[|run| - 1];
      var t := Exec(s, shorter, atomic).value;
      TrackIndex(s, shorter, atomic, idx);
      RunKeeps(s, shorter, atomic);
      PositionsAfter(t, x, atomic);
      QueueShrinks(t, x, atomic);
      TrackMove(Uids(t.held.actions), Uids(t.held.gone), QueuedUids(t.queue), t.nextUid, Uids(Do(t, x, atomic).held.actions),
                RemovesAt(t, x), idx, uid, Undisturbed(s, shorter, atomic, idx));
    }
  }

  lemma {:induction false} IndexReaches(s: Loop, more: seq<Step>, atomic: bool, idx: nat)
    requires Inv(s, atomic) && Exec(s, more, atomic).Some? && idx < |s.held.actions|
    ensures var t := Exec(s, more, atomic).value;
            idx < |t.held.actions| && t.held.actions[idx].uid == s.held.actions[idx].uid <==> Undisturbed(s, more, atomic, idx)
  {
    TrackIndex(s, more, atomic, idx);
    var t := Exec(s, more, atomic).value;
    assert idx < |t.held.actions| ==> Uids(t.held.actions)[idx] == t.held.actions[idx].uid;
  }

  /**
    A command posted with a snapshot index reaches the action the user saw if
    and only if no action at that index or below was taken out in between.
   */
  lemma {:induction false} IndexReachesIffUndisturbed(run: seq<Step>, more: seq<Step>, atomic: bool, idx: nat)
    requires Exec(Initial, run, atomic).Some? && Exec(Exec(Initial, run, atomic).value, more, atomic).Some?
    requires idx < |Exec(Initial, run, atomic).value.snapshot|
    ensures var s := Exec(Initial, run, atomic).value;
            var t := Exec(s, more, atomic).value;
            && |s.snapshot| == |s.held.actions|
            && (idx < |t.held.actions| && t.held.actions[idx].uid == s.held.actions[idx].uid <==> Undisturbed(s, more, atomic, idx))
  {
    RunKeeps(Initial, run, atomic);
    IndexReaches(Exec(Initial, run, atomic).value, more, atomic, idx);
  }
}
