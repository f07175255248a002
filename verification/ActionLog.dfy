/** The log of transmissions in every run of the event loop. */
module ActionLog {
  import opened Basics
  import opened Scheduling
  import opened ActionRuns

  // ----- The invariant -----

  /** Nothing outstanding of the action can fire before its period has passed since `t`. */
  predicate Spacing(a: Action, t: nat, now: nat) {
    && (forall w | w in a.timer.waits :: w >= t + PeriodOf(a.kind))
    && (a.timer.ready > 0 ==> now >= t + PeriodOf(a.kind))
  }

  /** A transmission and a listed action of the same identity agree. */
  predicate Consistent(d: Send, a: Action, now: nat) {
    d.uid == a.uid ==>
      && !d.stray && !d.kind.Single? && !a.kind.Single?
      && PeriodOf(a.kind) == PeriodOf(d.kind) && d.time <= now
      && (d.left == 0 ==> Spacing(a, d.time, now))
  }

  predicate ConsistentGone(d: Send, g: Action, now: nat) {
    d.uid == g.uid ==>
      && g.kind.Single? == d.kind.Single? && PeriodOf(g.kind) == PeriodOf(d.kind) && d.time <= now
      && (d.left == 0 ==> Spacing(g, d.time, now))
  }

  /** An earlier and a later transmission of one action. */
  predicate Spaced(d: Send, e: Send) {
    d.uid == e.uid ==>
      && d.time <= e.time
      && (d.left == 0 ==> e.time >= d.time + PeriodOf(d.kind))
      && d.kind.Single? == e.kind.Single?
      && (d.kind.Single? || d.stray ==> e.stray)
  }

  /** What one transmission shows of the sine clock, and of atomic cancelling. */
  predicate Shown(d: Send, atomic: bool) {
    && (d.kind.Sin? && !d.stray ==>
          d.resumeTime <= d.time && d.elapsed == d.live + (if d.paused then d.time - d.resumeTime else 0))
    && (atomic ==> d.left == 0 && !d.stray && !d.paused)
  }

  predicate AllConsistent(sends: seq<Send>, actions: seq<Action>, now: nat) {
    forall n, k | 0 <= n < |sends| && 0 <= k < |actions| :: Consistent(sends[n], actions[k], now)
  }

  predicate AllConsistentGone(sends: seq<Send>, gone: seq<Action>, now: nat) {
    forall n, k | 0 <= n < |sends| && 0 <= k < |gone| :: ConsistentGone(sends[n], gone[k], now)
  }

  predicate AllSpaced(sends: seq<Send>) {
    forall m, n | 0 <= m < n < |sends| :: Spaced(sends[m], sends[n])
  }

  predicate LogInv(s: Loop, atomic: bool) {
    && AllSpaced(s.sends)
    && AllConsistent(s.sends, s.held.actions, s.now)
    && AllConsistentGone(s.sends, s.held.gone, s.now)
    && (forall n | 0 <= n < |s.sends| :: Shown(s.sends[n], atomic))
    && (forall n | 0 <= n < |s.sends| :: s.sends[n].uid < s.nextUid && s.sends[n].uid !in QueuedUids(s.queue))
  }

  predicate Orderly(s: Loop, atomic: bool) {
    IdentityInv(s) && ListInv(s, atomic) && LogInv(s, atomic)
  }

  ghost predicate Inv(s: Loop, atomic: bool) {
    Orderly(s, atomic) && CountInv(s)
  }

  // ----- Steps that send nothing -----

  /** Whether the step runs a completion of a listed or a destroyed action. */
  predicate Fires(s: Loop, x: Step) {
    && x.RunNext? && s.queue != [] && s.queue[0].Completion?
    && (Pending(s.held.actions, s.queue[0].uid) || Pending(s.held.gone, s.queue[0].uid))
  }

  /** `b` is what became of `a`, and keeps every spacing. */
  ghost predicate Follows(a: Action, now: nat, b: Action, then_: nat) {
    && a.uid == b.uid && PeriodOf(a.kind) == PeriodOf(b.kind) && a.kind.Single? == b.kind.Single? && now <= then_
    && forall t: nat | t <= now && Spacing(a, t, now) :: Spacing(b, t, then_)
  }

  ghost predicate FollowsSome(before: seq<Action>, now: nat, b: Action, then_: nat) {
    exists j :: 0 <= j < |before| && Follows(before[j], now, b, then_)
  }

  lemma ExpiredFollows(a: Action, now: nat)
    requires a.timer.waits != [] && now >= a.timer.waits[0]
    ensures Follows(a, now, Expired(a), now)
  {
    assert a.timer.waits[0] in a.timer.waits;
    assert forall w | w in a.timer.waits[1..] :: w in a.timer.waits;
  }

  lemma CommandFollows(l: Lists, c: Command, now: nat, atomic: bool, k: nat)
    requires k < |Ran(l, c, now, atomic).actions|
    ensures FollowsSome(l.actions, now, Ran(l, c, now, atomic).actions[k], now)
            || (c.Add? && Ran(l, c, now, atomic).actions[k].uid == c.action.uid)
  {
    var b := Ran(l, c, now, atomic).actions[k];
    if c.Remove? && c.idx <= k && c.idx < |l.actions| {
      assert Follows(l.actions[k + 1], now, b, now);
    } else if k < |l.actions| {
      assert Follows(l.actions[k], now, b, now);
    }
  }

  lemma CommandFollowsGone(l: Lists, c: Command, now: nat, atomic: bool, k: nat)
    requires k < |Ran(l, c, now, atomic).gone|
    ensures FollowsSome(l.actions, now, Ran(l, c, now, atomic).gone[k], now) || Ran(l, c, now, atomic).gone[k] in l.gone
  {
    if k >= |l.gone| {
      assert Follows(l.actions[c.idx], now, Ran(l, c, now, atomic).gone[k], now);
    }
  }

  /** A step that sends nothing leaves every action as the log knows it, or takes one from the queue. */
  lemma QuietStep(s: Loop, x: Step, atomic: bool, k: nat)
    requires Enabled(s, x) && !Fires(s, x) && k < |Do(s, x, atomic).held.actions|
    ensures var s' := Do(s, x, atomic);
            FollowsSome(s.held.actions, s.now, s'.held.actions[k], s'.now) || s'.held.actions[k].uid in QueuedUids(s.queue)
  {
    var s' := Do(s, x, atomic);
    if x.RunNext? && s.queue[0].Run? {
      var c := s.queue[0].command;
      CommandFollows(s.held, c, s.now, atomic, k);
      assert c.Add? ==> QueuedUids(s.queue)[0] == c.action.uid;
    } else {
      if x.Expire? && x.i == k {
        ExpiredFollows(s.held.actions[k], s.now);
      }
      assert Follows(s.held.actions[k], s.now, s'.held.actions[k], s'.now);
    }
  }

  lemma QuietStepGone(s: Loop, x: Step, atomic: bool, k: nat)
    requires Enabled(s, x) && !Fires(s, x) && k < |Do(s, x, atomic).held.gone|
    ensures var s' := Do(s, x, atomic);
            || FollowsSome(s.held.actions, s.now, s'.held.gone[k], s'.now)
            || FollowsSome(s.held.gone, s.now, s'.held.gone[k], s'.now)
  {
    var g := Do(s, x, atomic).held.gone[k];
    if x.RunNext? && s.queue[0].Run? {
      CommandFollowsGone(s.held, s.queue[0].command, s.now, atomic, k);
    }
    if g in s.held.gone {
      var j :| 0 <= j < |s.held.gone| && s.held.gone[j] == g;
      assert Follows(s.held.gone[j], s.now, g, Do(s, x, atomic).now);
    }
  }

  lemma StaysConsistent(s: Loop, n: nat, b: Action, then_: nat)
    requires n < |s.sends|
    requires AllConsistent(s.sends, s.held.actions, s.now) && FollowsSome(s.held.actions, s.now, b, then_)
    ensures Consistent(s.sends[n], b, then_) && ConsistentGone(s.sends[n], b, then_)
  {
    var j :| 0 <= j < |s.held.actions| && Follows(s.held.actions[j], s.now, b, then_);
    assert Consistent(s.sends[n], s.held.actions[j], s.now);
  }

  lemma StaysConsistentGone(s: Loop, n: nat, b: Action, then_: nat)
    requires n < |s.sends|
    requires AllConsistentGone(s.sends, s.held.gone, s.now) && FollowsSome(s.held.gone, s.now, b, then_)
    ensures ConsistentGone(s.sends[n], b, then_)
  {
    var j :| 0 <= j < |s.held.gone| && Follows(s.held.gone[j], s.now, b, then_);
    assert ConsistentGone(s.sends[n], s.held.gone[j], s.now);
  }

  lemma QueueShrinks(s: Loop, x: Step, atomic: bool)
    requires Enabled(s, x)
    ensures forall u | u in QueuedUids(Do(s, x, atomic).queue) :: u in QueuedUids(s.queue) || u >= s.nextUid
    ensures Do(s, x, atomic).nextUid >= s.nextUid
  {
    match x
    case Create(kind, target, payload, startPaused) =>
      QueuedUidsAppend(s.queue, Run(Add(Constructed(s.nextUid, kind, target, payload, s.now), startPaused)));
    case Post(c) => QueuedUidsAppend(s.queue, Run(c));
    case RunNext(_) =>
      var uid := if s.queue[0].Completion? then Some(s.queue[0].uid) else CancelledBy(s.held.actions, s.queue[0].command);
      if uid.Some? { QueuedUidsWithout(s.queue[1..], uid.value); }
    case Expire(i) => QueuedUidsAppend(s.queue, Completion(s.held.actions[i].uid));
    case Tick(d) => QueuedUidsAged(s.queue, Do(s, x, atomic).queue, d);
  }

  lemma QuietKeepsLog(s: Loop, x: Step, atomic: bool)
    requires LogInv(s, atomic) && Enabled(s, x) && !Fires(s, x)
    ensures LogInv(Do(s, x, atomic), atomic)
  {
    var s' := Do(s, x, atomic);
    assert s'.sends == s.sends;
    QueueShrinks(s, x, atomic);
    forall n, k | 0 <= n < |s'.sends| && 0 <= k < |s'.held.actions|
      ensures Consistent(s'.sends[n], s'.held.actions[k], s'.now)
    {
      QuietStep(s, x, atomic, k);
      if s'.held.actions[k].uid !in QueuedUids(s.queue) {
        StaysConsistent(s, n, s'.held.actions[k], s'.now);
      }
    }
    forall n, k | 0 <= n < |s'.sends| && 0 <= k < |s'.held.gone|
      ensures ConsistentGone(s'.sends[n], s'.held.gone[k], s'.now)
    {
      QuietStepGone(s, x, atomic, k);
      if FollowsSome(s.held.actions, s.now, s'.held.gone[k], s'.now) {
        StaysConsistent(s, n, s'.held.gone[k], s'.now);
      } else {
        StaysConsistentGone(s, n, s'.held.gone[k], s'.now);
      }
    }
  }

  // ----- Steps that send -----

  lemma DistinctUids(s: Loop, i: nat)
    requires IdentityInv(s) && i < |s.held.actions|
    ensures forall j | 0 <= j < |s.held.actions| && j != i :: s.held.actions[j].uid != s.held.actions[i].uid
    ensures forall j | 0 <= j < |s.held.gone| :: s.held.gone[j].uid != s.held.actions[i].uid
    ensures s.held.actions[i].uid < s.nextUid && s.held.actions[i].uid !in QueuedUids(s.queue)
  {
    assert forall j | 0 <= j < |s.held.actions| :: Uids(s.held.actions)[j] == s.held.actions[j].uid;
    assert forall j | 0 <= j < |s.held.gone| :: Uids(s.held.gone)[j] == s.held.gone[j].uid;
    assert s.held.actions[i].uid in Uids(s.held.actions);
  }

  lemma DistinctGone(s: Loop, i: nat)
    requires IdentityInv(s) && i < |s.held.gone|
    ensures forall j | 0 <= j < |s.held.actions| :: s.held.actions[j].uid != s.held.gone[i].uid
    ensures forall j | 0 <= j < |s.held.gone| && j != i :: s.held.gone[j].uid != s.held.gone[i].uid
    ensures s.held.gone[i].uid < s.nextUid && s.held.gone[i].uid !in QueuedUids(s.queue)
  {
    assert forall j | 0 <= j < |s.held.actions| :: Uids(s.held.actions)[j] == s.held.actions[j].uid;
    assert forall j | 0 <= j < |s.held.gone| :: Uids(s.held.gone)[j] == s.held.gone[j].uid;
    assert s.held.gone[i].uid in Uids(s.held.gone);
  }

  /** `b` is one of the actions other than the i-th. */
  predicate AnotherOf(actions: seq<Action>, i: nat, b: Action) {
    exists j :: 0 <= j < |actions| && j != i && b == actions[j]
  }

  /** After a completion every action in the list but the fired one is as before. */
  lemma OthersUnchanged(l: Lists, i: nat, encoded: seq<bv8>, now: nat, atomic: bool, k: nat)
    requires i < |l.actions| && l.actions[i].timer.ready > 0 && k < |Completed(l, i, encoded, now, atomic).actions|
    ensures var b := Completed(l, i, encoded, now, atomic).actions[k];
            AnotherOf(l.actions, i, b) || (!l.actions[i].kind.Single? && b == Fired(l.actions[i], encoded, now, atomic))
  {
    var b := Completed(l, i, encoded, now, atomic).actions[k];
    var j := if l.actions[i].kind.Single? && k >= i then k + 1 else k;
    assert j != i ==> b == l.actions[j];
  }

  lemma OthersStayGone(l: Lists, i: nat, encoded: seq<bv8>, now: nat, atomic: bool, k: nat)
    requires i < |l.actions| && l.actions[i].timer.ready > 0 && k < |Completed(l, i, encoded, now, atomic).gone|
    ensures var g, fired := Completed(l, i, encoded, now, atomic).gone[k], Fired(l.actions[i], encoded, now, atomic);
            (k < |l.gone| && g == l.gone[k]) ||
            (l.actions[i].kind.Single? && g == fired.(timer := Cancelled(fired.timer, atomic)))
  {
  }

  lemma FiredFollows(a: Action, encoded: seq<bv8>, now: nat, atomic: bool)
    requires a.timer.ready > 0
    ensures Follows(a, now, Fired(a, encoded, now, atomic), now)
    ensures var b := Fired(a, encoded, now, atomic);
            Follows(a, now, b.(timer := Cancelled(b.timer, atomic)), now)
  {
  }

  lemma NewSendConsistent(s: Loop, i: nat, encoded: seq<bv8>, atomic: bool)
    requires Orderly(s, atomic) && i < |s.held.actions| && s.held.actions[i].timer.ready > 0
    ensures var r, e := Completed(s.held, i, encoded, s.now, atomic), SendOf(s.held.actions[i], s.now, false);
            && (forall k | 0 <= k < |r.actions| :: Consistent(e, r.actions[k], s.now))
            && (forall k | 0 <= k < |r.gone| :: ConsistentGone(e, r.gone[k], s.now))
  {
    var r, e := Completed(s.held, i, encoded, s.now, atomic), SendOf(s.held.actions[i], s.now, false);
    DistinctUids(s, i);
    forall k | 0 <= k < |r.actions| ensures Consistent(e, r.actions[k], s.now) {
      OthersUnchanged(s.held, i, encoded, s.now, atomic, k);
    }
    forall k | 0 <= k < |r.gone| ensures ConsistentGone(e, r.gone[k], s.now) {
      OthersStayGone(s.held, i, encoded, s.now, atomic, k);
    }
  }

  lemma OldSendConsistent(s: Loop, n: nat, i: nat, encoded: seq<bv8>, atomic: bool)
    requires Orderly(s, atomic) && n < |s.sends| && i < |s.held.actions| && s.held.actions[i].timer.ready > 0
    ensures var r, e := Completed(s.held, i, encoded, s.now, atomic), SendOf(s.held.actions[i], s.now, false);
            && (forall k | 0 <= k < |r.actions| :: Consistent(s.sends[n], r.actions[k], s.now))
            && (forall k | 0 <= k < |r.gone| :: ConsistentGone(s.sends[n], r.gone[k], s.now))
            && Spaced(s.sends[n], e)
  {
    var r, a := Completed(s.held, i, encoded, s.now, atomic), s.held.actions[i];
    FiredFollows(a, encoded, s.now, atomic);
    assert Consistent(s.sends[n], a, s.now);
    var b := Fired(a, encoded, s.now, atomic);
    StaysConsistent(s, n, b, s.now);
    StaysConsistent(s, n, b.(timer := Cancelled(b.timer, atomic)), s.now);
    forall k | 0 <= k < |r.actions| ensures Consistent(s.sends[n], r.actions[k], s.now) {
      OthersUnchanged(s.held, i, encoded, s.now, atomic, k);
    }
    forall k | 0 <= k < |r.gone| ensures ConsistentGone(s.sends[n], r.gone[k], s.now) {
      OthersStayGone(s.held, i, encoded, s.now, atomic, k);
    }
  }

  lemma ShownByLive(a: Action, now: nat, atomic: bool)
    requires ActionInv(a, now, atomic) && a.timer.ready > 0
    ensures Shown(SendOf(a, now, false), atomic)
  {
  }

  lemma CompleteKeepsLog(s: Loop, uid: nat, encoded: seq<bv8>, atomic: bool)
    requires Orderly(s, atomic) && Pending(s.held.actions, uid)
    ensures LogInv(Fire(s, uid, encoded, atomic), atomic)
  {
    var s' := Fire(s, uid, encoded, atomic);
    var i := Position(s.held.actions, uid);
    DistinctUids(s, i);
    QueuedUidsWithout(s.queue, uid);
    NewSendConsistent(s, i, encoded, atomic);
    ShownByLive(s.held.actions[i], s.now, atomic);
    forall n | 0 <= n < |s.sends| ensures
      && (forall k | 0 <= k < |s'.held.actions| :: Consistent(s.sends[n], s'.held.actions[k], s.now))
      && (forall k | 0 <= k < |s'.held.gone| :: ConsistentGone(s.sends[n], s'.held.gone[k], s.now))
      && Spaced(s.sends[n], s'.sends[|s.sends|])
    {
      OldSendConsistent(s, n, i, encoded, atomic);
    }
    assert forall n | 0 <= n < |s.sends| :: s'.sends[n] == s.sends[n];
  }

  lemma StrayKeepsLog(s: Loop, uid: nat, encoded: seq<bv8>, atomic: bool)
    requires Orderly(s, atomic) && !Pending(s.held.actions, uid) && Pending(s.held.gone, uid)
    ensures LogInv(Fire(s, uid, encoded, atomic), atomic)
  {
    var s' := Fire(s, uid, encoded, atomic);
    var j := Position(s.held.gone, uid);
    var e := SendOf(s.held.gone[j], s.now, true);
    DistinctGone(s, j);
    assert GoneInv(s.held.gone[j], atomic) && !atomic;
    assert s'.sends == s.sends + [e] && s'.held.actions == s.held.actions;
    forall n | 0 <= n < |s.sends| ensures Spaced(s.sends[n], e) {
      assert ConsistentGone(s.sends[n], s.held.gone[j], s.now);
    }
    forall n, k | 0 <= n < |s'.sends| && 0 <= k < |s'.held.gone| ensures ConsistentGone(s'.sends[n], s'.held.gone[k], s.now) {
      if n < |s.sends| {
        assert ConsistentGone(s.sends[n], s.held.gone[k], s.now);
      }
    }
  }

  // ----- Every run -----


  lemma FiresKeepsLog(s: Loop, x: Step, atomic: bool)
    requires Orderly(s, atomic) && Enabled(s, x) && Fires(s, x)
    ensures LogInv(Do(s, x, atomic), atomic)
  {
    var uid := s.queue[0].uid;
    var t := s.(queue := s.queue[1..]);
    assert QueuedUids(t.queue) == QueuedUids(s.queue);
    assert forall h | h in t.queue :: h in s.queue;
    if Pending(s.held.actions, uid) {
      CompleteKeepsLog(t, uid, x.encoded, atomic);
    } else {
      StrayKeepsLog(t, uid, x.encoded, atomic);
    }
  }

  lemma StepKeeps(s: Loop, x: Step, atomic: bool)
    requires Inv(s, atomic) && Enabled(s, x)
    ensures Inv(Do(s, x, atomic), atomic)
  {
    IdentityStep(s, x, atomic);
    CountStep(s, x, atomic);
    ListStep(s, x, atomic);
    if Fires(s, x) {
      FiresKeepsLog(s, x, atomic);
    } else {
      QuietKeepsLog(s, x, atomic);
    }
  }

  lemma {:induction false} RunKeeps(s: Loop, run: seq<Step>, atomic: bool)
    requires Inv(s, atomic) && Exec(s, run, atomic).Some?
    ensures Inv(Exec(s, run, atomic).value, atomic)
  {
    if run != [] {
      RunKeeps(s, run[..|run| - 1], atomic);
      StepKeeps(Exec(s, run[..|run| - 1], atomic).value, run[|run| - 1], atomic);
    }
  }
}
