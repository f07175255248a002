/**
  Whole runs of the event loop: posting, the first-in-first-out queue of commands
  and timer completions, and the clock, in any order.
 */
module ActionRuns {
  import opened Basics
  import opened Scheduling

  /**
    One run of a completion: the sine clock's reading against the unpaused
    lifetime, the pause state, the completions still queued behind it, and
    whether the action was already destroyed.
   */
  datatype Send = Send(uid: nat, time: nat, kind: Kind, elapsed: nat, live: nat, paused: bool, resumeTime: nat,
                       left: nat, stray: bool)

  datatype Handler = Run(command: Command) | Completion(uid: nat)

  datatype Loop = Loop(held: Lists, snapshot: seq<ActionInfo>, queue: seq<Handler>, now: nat,
                       sends: seq<Send>, nextUid: nat)

  datatype Step =
    | Create(kind: Kind, target: Target, payload: seq<bv8>, startPaused: bool) // construct an action and post its addition
    | Post(c: Command)                                                         // any other command
    | RunNext(encoded: seq<bv8>)                                               // the loop runs the oldest handler
    | Expire(i: nat)                                                           // a wait is over; its completion is queued
    | Tick(d: nat)

  const Initial := Loop(Lists([], []), [], [], 0, [], 0)

  predicate Enabled(s: Loop, x: Step) {
    match x
    case Create(_, _, _, _) => true
    case Post(c) => !c.Add?
    case RunNext(_) => s.queue != []
    case Expire(i) =>
      i < |s.held.actions| && s.held.actions[i].timer.waits != [] && s.now >= s.held.actions[i].timer.waits[0]
    case Tick(_) => true
  }

  function Constructed(uid: nat, kind: Kind, target: Target, payload: seq<bv8>, now: nat): Action {
    Action(uid, kind, target, payload, false, false, None, Timer([], 0), Phase(0, now, 0))
  }

  /** A new action is unpaused, has sent nothing, waits for nothing, and its sine clock starts now. */
  lemma ConstructedMeans(uid: nat, kind: Kind, target: Target, payload: seq<bv8>, now: nat)
    ensures var a := Constructed(uid, kind, target, payload, now);
            && a.uid == uid && a.kind == kind && a.target == target && a.payload == payload
            && !a.paused && a.sent.None? && a.timer == Timer([], 0) && Elapsed(a, now) == 0
  {
  }

  function Expired(a: Action): Action
    requires a.timer.waits != []
  {
    a.(timer := Timer(a.timer.waits[1..], a.timer.ready + 1))
  }

  /** Time passes for an action that is not paused, whether it is in the list or still in the queue. */
  function Aged(a: Action, d: nat): Action {
    if a.paused then a else a.(phase := a.phase.(live := a.phase.live + d))
  }

  function AgedHandler(h: Handler, d: nat): Handler {
    if Adds(h) then Run(h.command.(action := Aged(h.command.action, d))) else h
  }

  /** Whether the command's handler gets as far as rebuilding the snapshot. */
  predicate Publishes(actions: seq<Action>, c: Command) {
    match c
    case Add(_, _) => true
    case Remove(i) => i < |actions|
    case TogglePause(i) => i < |actions|
    case UpdateSinParam(i, _, _) => i < |actions| && actions[i].kind.Sin?
    case UpdatePayload(_, _) => false
  }

  /** The action whose timer the command cancels. */
  function CancelledBy(actions: seq<Action>, c: Command): Option<nat> {
    match c
    case Remove(i) => if i < |actions| then Some(actions[i].uid) else None
    case TogglePause(i) => if i < |actions| then Some(actions[i].uid) else None
    case _ => None
  }

  /** The queue without the completions of one action. */
  function Without(queue: seq<Handler>, uid: nat): (r: seq<Handler>)
    ensures |r| <= |queue|
    ensures forall h :: h in r <==> h in queue && h != Completion(uid)
  {
    if queue == [] then []
    else
      assert forall h :: h in queue <==> h == queue[0] || h in queue[1..];
      if queue[0] == Completion(uid) then Without(queue[1..], uid) else [queue[0]] + Without(queue[1..], uid)
  }

  /** Atomic cancelling takes the action's completions out of the queue. */
  function Purged(queue: seq<Handler>, uid: nat, atomic: bool): seq<Handler> {
    if atomic then Without(queue, uid) else queue
  }

  /** The position of the action with that identity, or the number of actions. */
  function Position(actions: seq<Action>, uid: nat): (r: nat)
    ensures r <= |actions|
    ensures r < |actions| ==> actions[r].uid == uid
    ensures forall i | 0 <= i < r :: actions[i].uid != uid
  {
    if actions == [] || actions[0].uid == uid then 0 else 1 + Position(actions[1..], uid)
  }

  predicate Pending(actions: seq<Action>, uid: nat) {
    var i := Position(actions, uid);
    i < |actions| && actions[i].timer.ready > 0
  }

  function SendOf(a: Action, now: nat, stray: bool): Send
    requires a.timer.ready > 0
  {
    Send(a.uid, now, a.kind, Elapsed(a, now), a.phase.live, a.paused, a.phase.resumeTime, a.timer.ready - 1, stray)
  }

  /** Runs a posted command that was taken off the queue. */
  function Commanded(s: Loop, c: Command, atomic: bool): Loop {
    var after, uid := Ran(s.held, c, s.now, atomic), CancelledBy(s.held.actions, c);
    s.(held := after,
       queue := if uid.Some? then Purged(s.queue, uid.value, atomic) else s.queue,
       snapshot := if Publishes(s.held.actions, c) then Projection(after.actions) else s.snapshot)
  }

  /** Runs a completion that was taken off the queue. */
  function Fire(s: Loop, uid: nat, encoded: seq<bv8>, atomic: bool): Loop {
    if Pending(s.held.actions, uid) then
      var i := Position(s.held.actions, uid);
      var after := Completed(s.held, i, encoded, s.now, atomic);
      s.(held := after, queue := Purged(s.queue, uid, atomic), snapshot := Projection(after.actions),
         sends := s.sends + [SendOf(s.held.actions[i], s.now, false)])
    else if Pending(s.held.gone, uid) then
      var j := Position(s.held.gone, uid);
      s.(held := Strayed(s.held, j), snapshot := Projection(s.held.actions),
         sends := s.sends + [SendOf(s.held.gone[j], s.now, true)])
    else s
  }

  function Do(s: Loop, x: Step, atomic: bool): Loop
    requires Enabled(s, x)
  {
    match x
    case Create(kind, target, payload, startPaused) =>
      var a := Constructed(s.nextUid, kind, target, payload, s.now);
      s.(queue := s.queue + [Run(Add(a, startPaused))], nextUid := s.nextUid + 1)
    case Post(c) => s.(queue := s.queue + [Run(c)])
    case RunNext(encoded) =>
      var t := s.(queue := s.queue[1..]);
      (match s.queue[0]
       case Run(c) => Commanded(t, c, atomic)
       case Completion(uid) => Fire(t, uid, encoded, atomic))
    case Expire(i) =>
      var a := s.held.actions[i];
      s.(held := Updated(s.held, i, Expired(a)), queue := s.queue + [Completion(a.uid)])
    case Tick(d) =>
      s.(now := s.now + d,
         held := s.held.(actions := seq(|s.held.actions|, i requires 0 <= i < |s.held.actions| => Aged(s.held.actions[i], d))),
         queue := seq(|s.queue|, i requires 0 <= i < |s.queue| => AgedHandler(s.queue[i], d)))
  }

  function Exec(s: Loop, run: seq<Step>, atomic: bool): Option<Loop> {
    if run == [] then Some(s)
    else
      var before := Exec(s, run[..|run| - 1], atomic);
      if before.Some? && Enabled(before.value, run[|run| - 1])
      then Some(Do(before.value, run[|run| - 1], atomic)) else None
  }

  // ----- Identities -----

  function Uids(actions: seq<Action>): (r: seq<nat>)
    ensures |r| == |actions|
  {
    seq(|actions|, i requires 0 <= i < |actions| => actions[i].uid)
  }

  predicate Adds(h: Handler) {
    h.Run? && h.command.Add?
  }

  /** The identities of the actions whose addition is still queued. */
  function QueuedUids(queue: seq<Handler>): seq<nat> {
    if queue == [] then []
    else if Adds(queue[0]) then [queue[0].command.action.uid] + QueuedUids(queue[1..])
    else QueuedUids(queue[1..])
  }

  predicate NoDuplicates(u: seq<nat>) {
    forall i, j | 0 <= i < j < |u| :: u[i] != u[j]
  }

  /** The identities in the list, of the destroyed actions, and of those still in the queue are all different. */
  predicate Identities(list: seq<nat>, gone: seq<nat>, queued: seq<nat>, next: nat) {
    && NoDuplicates(list) && NoDuplicates(gone) && NoDuplicates(queued)
    && (forall u | u in list :: u < next && u !in gone && u !in queued)
    && (forall u | u in gone :: u < next && u !in queued)
    && (forall u | u in queued :: u < next)
  }

  predicate IdentityInv(s: Loop) {
    Identities(Uids(s.held.actions), Uids(s.held.gone), QueuedUids(s.queue), s.nextUid)
  }

  lemma {:induction false} QueuedUidsAppend(queue: seq<Handler>, h: Handler)
    ensures QueuedUids(queue + [h]) ==
            if Adds(h) then QueuedUids(queue) + [h.command.action.uid] else QueuedUids(queue)
  {
    if queue == [] {
      assert queue + [h] == [h] && [h][1..] == [];
    } else {
      QueuedUidsAppend(queue[1..], h);
      assert (queue + [h])[1..] == queue[1..] + [h];
    }
  }

  lemma {:induction false} QueuedUidsAged(queue: seq<Handler>, aged: seq<Handler>, d: nat)
    requires |aged| == |queue| && forall i | 0 <= i < |queue| :: aged[i] == AgedHandler(queue[i], d)
    ensures QueuedUids(aged) == QueuedUids(queue)
  {
    if queue != [] {
      QueuedUidsAged(queue[1..], aged[1..], d);
    }
  }

  lemma {:induction false} QueuedUidsWithout(queue: seq<Handler>, uid: nat)
    ensures QueuedUids(Without(queue, uid)) == QueuedUids(queue)
  {
    if queue != [] {
      QueuedUidsWithout(queue[1..], uid);
      if queue[0] != Completion(uid) {
        assert Without(queue, uid)[1..] == Without(queue[1..], uid);
      }
    }
  }

  lemma DropIdentity(list: seq<nat>, gone: seq<nat>, queued: seq<nat>, next: nat, i: nat)
    requires Identities(list, gone, queued, next) && i < |list|
    ensures Identities(list[..i] + list[i + 1..], gone + [list[i]], queued, next)
    ensures forall u :: u in list[..i] + list[i + 1..] <==> u in list && u != list[i]
  {
    var rest := list[..i] + list[i + 1..];
    assert forall k | 0 <= k < |rest| :: rest[k] == list[if k < i then k else k + 1];
    forall u ensures u in rest <==> u in list && u != list[i] {
      if u in list && u != list[i] {
        var k :| 0 <= k < |list| && list[k] == u;
        assert rest[if k < i then k else k - 1] == u;
      }
    }
    assert list[i] in list;
  }

  lemma AddIdentity(list: seq<nat>, gone: seq<nat>, queued: seq<nat>, next: nat)
    requires Identities(list, gone, queued, next) && queued != []
    ensures Identities(list + [queued[0]], gone, queued[1..], next)
  {
    assert queued[0] in queued;
    assert forall u | u in queued[1..] :: u in queued && u != queued[0];
  }

  lemma FreshIdentity(list: seq<nat>, gone: seq<nat>, queued: seq<nat>, next: nat)
    requires Identities(list, gone, queued, next)
    ensures Identities(list, gone, queued + [next], next + 1)
  {
    assert forall k | 0 <= k < |queued| :: queued[k] in queued;
  }

  lemma UidsDropped(l: Lists, i: nat, atomic: bool)
    requires i < |l.actions|
    ensures Uids(Dropped(l, i, atomic).actions) == Uids(l.actions)[..i] + Uids(l.actions)[i + 1..]
    ensures Uids(Dropped(l, i, atomic).gone) == Uids(l.gone) + [Uids(l.actions)[i]]
  {
  }

  lemma UidsUpdated(l: Lists, i: nat, a: Action)
    requires i < |l.actions| && a.uid == l.actions[i].uid
    ensures Uids(Updated(l, i, a).actions) == Uids(l.actions)
  {
  }

  lemma AddedIdentity(l: Lists, c: Command, queue: seq<Handler>, next: nat, now: nat, atomic: bool)
    requires c.Add? && Identities(Uids(l.actions), Uids(l.gone), [c.action.uid] + QueuedUids(queue), next)
    ensures Identities(Uids(Ran(l, c, now, atomic).actions), Uids(l.gone), QueuedUids(queue), next)
  {
    AddIdentity(Uids(l.actions), Uids(l.gone), [c.action.uid] + QueuedUids(queue), next);
    assert Uids(Ran(l, c, now, atomic).actions) == Uids(l.actions) + [c.action.uid];
    assert ([c.action.uid] + QueuedUids(queue))[1..] == QueuedUids(queue);
  }

  lemma RemovedIdentity(l: Lists, i: nat, queued: seq<nat>, next: nat, atomic: bool)
    requires Identities(Uids(l.actions), Uids(l.gone), queued, next) && i < |l.actions|
    ensures Identities(Uids(Dropped(l, i, atomic).actions), Uids(Dropped(l, i, atomic).gone), queued, next)
  {
    UidsDropped(l, i, atomic);
    DropIdentity(Uids(l.actions), Uids(l.gone), queued, next, i);
  }

  lemma CommandIdentity(l: Lists, c: Command, queue: seq<Handler>, next: nat, now: nat, atomic: bool)
    requires Identities(Uids(l.actions), Uids(l.gone), QueuedUids([Run(c)] + queue), next)
    ensures var r := Ran(l, c, now, atomic);
            Identities(Uids(r.actions), Uids(r.gone), QueuedUids(queue), next)
  {
    assert ([Run(c)] + queue)[1..] == queue;
    if c.Add? {
      AddedIdentity(l, c, queue, next, now, atomic);
    } else if c.idx < |l.actions| {
      if c.Remove? {
        RemovedIdentity(l, c.idx, QueuedUids(queue), next, atomic);
      } else {
        UidsUpdated(l, c.idx, Ran(l, c, now, atomic).actions[c.idx]);
      }
    }
  }

  lemma CompletedIdentity(l: Lists, i: nat, encoded: seq<bv8>, queued: seq<nat>, next: nat, now: nat, atomic: bool)
    requires Identities(Uids(l.actions), Uids(l.gone), queued, next) && i < |l.actions| && l.actions[i].timer.ready > 0
    ensures var r := Completed(l, i, encoded, now, atomic);
            Identities(Uids(r.actions), Uids(r.gone), queued, next)
  {
    var fired := Updated(l, i, Fired(l.actions[i], encoded, now, atomic));
    UidsUpdated(l, i, Fired(l.actions[i], encoded, now, atomic));
    if l.actions[i].kind.Single? {
      RemovedIdentity(fired, i, queued, next, atomic);
    }
  }

  lemma FireIdentity(s: Loop, uid: nat, encoded: seq<bv8>, atomic: bool)
    requires IdentityInv(s)
    ensures IdentityInv(Fire(s, uid, encoded, atomic))
  {
    QueuedUidsWithout(s.queue, uid);
    if Pending(s.held.actions, uid) {
      CompletedIdentity(s.held, Position(s.held.actions, uid), encoded, QueuedUids(s.queue), s.nextUid, s.now, atomic);
    } else if Pending(s.held.gone, uid) {
      assert Uids(Strayed(s.held, Position(s.held.gone, uid)).gone) == Uids(s.held.gone);
    }
  }

  /** Every step keeps the identities apart, and creates only fresh ones. */
  lemma IdentityStep(s: Loop, x: Step, atomic: bool)
    requires IdentityInv(s) && Enabled(s, x)
    ensures IdentityInv(Do(s, x, atomic)) && Do(s, x, atomic).nextUid >= s.nextUid
  {
    var s' := Do(s, x, atomic);
    match x
    case Create(kind, target, payload, startPaused) =>
      QueuedUidsAppend(s.queue, Run(Add(Constructed(s.nextUid, kind, target, payload, s.now), startPaused)));
      FreshIdentity(Uids(s.held.actions), Uids(s.held.gone), QueuedUids(s.queue), s.nextUid);
    case Post(c) =>
      QueuedUidsAppend(s.queue, Run(c));
    case RunNext(encoded) =>
      var t, h := s.(queue := s.queue[1..]), s.queue[0];
      assert s.queue == [h] + t.queue;
      if h.Run? {
        CommandIdentity(s.held, h.command, t.queue, s.nextUid, s.now, atomic);
        if CancelledBy(s.held.actions, h.command).Some? {
          QueuedUidsWithout(t.queue, CancelledBy(s.held.actions, h.command).value);
        }
      } else {
        assert QueuedUids(t.queue) == QueuedUids(s.queue);
        FireIdentity(t, h.uid, encoded, atomic);
      }
    case Expire(i) =>
      QueuedUidsAppend(s.queue, Completion(s.held.actions[i].uid));
      UidsUpdated(s.held, i, Expired(s.held.actions[i]));
    case Tick(d) =>
      QueuedUidsAged(s.queue, s'.queue, d);
      assert Uids(s'.held.actions) == Uids(s.held.actions);
  }

  // ----- Queued completions -----

  function Count(queue: seq<Handler>, uid: nat): nat {
    if queue == [] then 0 else (if queue[0] == Completion(uid) then 1 else 0) + Count(queue[1..], uid)
  }

  lemma {:induction false} CountAppend(queue: seq<Handler>, h: Handler, uid: nat)
    ensures Count(queue + [h], uid) == Count(queue, uid) + (if h == Completion(uid) then 1 else 0)
  {
    if queue == [] {
      assert queue + [h] == [h] && [h][1..] == [];
    } else {
      assert (queue + [h])[1..] == queue[1..] + [h];
      CountAppend(queue[1..], h, uid);
    }
  }

  lemma {:induction false} CountAged(queue: seq<Handler>, aged: seq<Handler>, d: nat, uid: nat)
    requires |aged| == |queue| && forall i | 0 <= i < |queue| :: aged[i] == AgedHandler(queue[i], d)
    ensures Count(aged, uid) == Count(queue, uid)
  {
    if queue != [] {
      CountAged(queue[1..], aged[1..], d, uid);
    }
  }

  lemma {:induction false} CountWithout(queue: seq<Handler>, uid: nat, other: nat)
    ensures Count(Without(queue, uid), other) == if other == uid then 0 else Count(queue, other)
  {
    if queue != [] {
      CountWithout(queue[1..], uid, other);
      if queue[0] != Completion(uid) {
        assert Without(queue, uid)[1..] == Without(queue[1..], uid);
      }
    }
  }

  /** How many completions the objects themselves account for. */
  function Ready(l: Lists, uid: nat): nat {
    var i, j := Position(l.actions, uid), Position(l.gone, uid);
    if i < |l.actions| then l.actions[i].timer.ready else if j < |l.gone| then l.gone[j].timer.ready else 0
  }

  /** Every action has exactly as many completions in the queue as its timer says. */
  ghost predicate CountInv(s: Loop) {
    forall u: nat :: Count(s.queue, u) == Ready(s.held, u)
  }

  lemma PositionOf(actions: seq<Action>, i: nat)
    requires NoDuplicates(Uids(actions)) && i < |actions|
    ensures Position(actions, actions[i].uid) == i
  {
    assert Uids(actions)[i] == actions[i].uid;
    var j := Position(actions, actions[i].uid);
    assert j < |actions| ==> Uids(actions)[j] == actions[i].uid;
  }

  lemma ReadyUpdated(l: Lists, i: nat, a: Action, u: nat)
    requires i < |l.actions| && a.uid == l.actions[i].uid && NoDuplicates(Uids(l.actions))
    ensures Ready(Updated(l, i, a), u) == if u == a.uid then a.timer.ready else Ready(l, u)
  {
    UidsUpdated(l, i, a);
    var after := l.actions[i := a];
    PositionOf(after, i);
    assert u in Uids(after) <==> u in Uids(l.actions);
    SamePosition(l.actions, after, u);
  }

  lemma SamePosition(a: seq<Action>, b: seq<Action>, u: nat)
    requires Uids(a) == Uids(b)
    ensures Position(a, u) == Position(b, u)
  {
    var i, j := Position(a, u), Position(b, u);
    assert forall k | 0 <= k < |a| :: Uids(a)[k] == a[k].uid && Uids(b)[k] == b[k].uid;
    assert i < |a| ==> b[i].uid == u;
    assert j < |a| ==> a[j].uid == u;
  }

  lemma Membership(actions: seq<Action>, u: nat)
    ensures u in Uids(actions) <==> Position(actions, u) < |actions|
  {
    var i := Position(actions, u);
    assert i < |actions| ==> Uids(actions)[i] == u;
    if u in Uids(actions) {
      var k :| 0 <= k < |actions| && Uids(actions)[k] == u;
      assert actions[k].uid == u;
    }
  }

  /** An action that is not the dropped one is found where it was, or one further down. */
  lemma PositionDropped(l: Lists, i: nat, atomic: bool, u: nat)
    requires i < |l.actions| && NoDuplicates(Uids(l.actions)) && u != l.actions[i].uid
    ensures var d, k := Dropped(l, i, atomic).actions, Position(l.actions, u);
            if k < |l.actions| then Position(d, u) < |d| && d[Position(d, u)] == l.actions[k] else Position(d, u) == |d|
  {
    var d, k := Dropped(l, i, atomic).actions, Position(l.actions, u);
    var m := Position(d, u);
    assert m < |d| ==> d[m] == l.actions[if m < i then m else m + 1];
    if k < |l.actions| {
      var n := if k < i then k else k - 1;
      assert d[n] == l.actions[k];
      assert m < |d|;
      PositionOf(l.actions, if m < i then m else m + 1);
    }
  }

  lemma ReadyDropped(l: Lists, i: nat, atomic: bool, queued: seq<nat>, next: nat, u: nat)
    requires Identities(Uids(l.actions), Uids(l.gone), queued, next) && i < |l.actions|
    ensures Ready(Dropped(l, i, atomic), u) == if u == l.actions[i].uid then Cancelled(l.actions[i].timer, atomic).ready else Ready(l, u)
  {
    var d := Dropped(l, i, atomic);
    if u == l.actions[i].uid {
      DroppedIsGone(l, i, atomic, queued, next);
    } else {
      PositionDropped(l, i, atomic, u);
      PrefixPosition(l.gone, d.gone, u);
    }
  }

  lemma DroppedIsGone(l: Lists, i: nat, atomic: bool, queued: seq<nat>, next: nat)
    requires Identities(Uids(l.actions), Uids(l.gone), queued, next) && i < |l.actions|
    ensures var d, u := Dropped(l, i, atomic), l.actions[i].uid;
            Position(d.actions, u) == |d.actions| && Position(d.gone, u) == |l.gone|
  {
    var d, u := Dropped(l, i, atomic), l.actions[i].uid;
    UidsDropped(l, i, atomic);
    DropIdentity(Uids(l.actions), Uids(l.gone), queued, next, i);
    Membership(d.actions, u);
    assert d.gone[|l.gone|].uid == u;
    PositionOf(d.gone, |l.gone|);
  }

  lemma {:induction false} PrefixPosition(a: seq<Action>, b: seq<Action>, u: nat)
    requires |b| == |a| + 1 && b[..|a|] == a && b[|a|].uid != u
    ensures if Position(a, u) < |a| then Position(b, u) == Position(a, u) else Position(b, u) == |b|
  {
    var i, j := Position(a, u), Position(b, u);
    assert forall k | 0 <= k < |a| :: b[k] == a[k];
  }

  lemma ReadyAdded(l: Lists, a: Action, u: nat)
    requires a.timer.ready == 0 && a.uid !in Uids(l.actions) && a.uid !in Uids(l.gone)
    ensures Ready(l.(actions := l.actions + [a]), u) == Ready(l, u)
  {
    Membership(l.actions, a.uid);
    Membership(l.gone, a.uid);
    var after := l.actions + [a];
    if u == a.uid {
      assert Position(after, u) == |l.actions| by {
        assert forall k | 0 <= k < |l.actions| :: after[k].uid != u;
        assert after[|l.actions|].uid == u;
      }
    } else {
      PrefixPosition(l.actions, after, u);
    }
  }

  lemma ReadyStrayed(l: Lists, j: nat, u: nat)
    requires j < |l.gone| && l.gone[j].timer.ready > 0 && NoDuplicates(Uids(l.gone)) && l.gone[j].uid !in Uids(l.actions)
    ensures Ready(Strayed(l, j), u) == Ready(l, u) - (if u == l.gone[j].uid then 1 else 0)
  {
    var after := Strayed(l, j).gone;
    assert Uids(after) == Uids(l.gone);
    SamePosition(l.gone, after, u);
    PositionOf(l.gone, j);
    Membership(l.actions, l.gone[j].uid);
  }

  /** What one command or completion does to the queued completions of each action. */
  lemma CommandCount(s: Loop, c: Command, atomic: bool, u: nat)
    requires Identities(Uids(s.held.actions), Uids(s.held.gone), QueuedUids([Run(c)] + s.queue), s.nextUid)
    requires Count(s.queue, u) == Ready(s.held, u)
    requires c.Add? ==> c.action.timer == Timer([], 0)
    ensures var t := Commanded(s, c, atomic);
            Count(t.queue, u) == Ready(t.held, u)
  {
    assert ([Run(c)] + s.queue)[1..] == s.queue;
    var l := s.held;
    if c.Add? {
      assert c.action.uid in QueuedUids([Run(c)] + s.queue);
      ReadyAdded(l, Started(c.action, c.startPaused, s.now, atomic), u);
    } else if c.idx < |l.actions| {
      CountWithout(s.queue, l.actions[c.idx].uid, u);
      PositionOf(l.actions, c.idx);
      if c.Remove? {
        ReadyDropped(l, c.idx, atomic, QueuedUids(s.queue), s.nextUid, u);
      } else {
        ReadyUpdated(l, c.idx, Ran(l, c, s.now, atomic).actions[c.idx], u);
      }
    }
  }

  lemma CompletedReady(l: Lists, i: nat, encoded: seq<bv8>, queued: seq<nat>, next: nat, now: nat, atomic: bool, u: nat)
    requires Identities(Uids(l.actions), Uids(l.gone), queued, next) && i < |l.actions| && l.actions[i].timer.ready > 0
    ensures Ready(Completed(l, i, encoded, now, atomic), u) ==
            if u != l.actions[i].uid then Ready(l, u) else if atomic then 0 else l.actions[i].timer.ready - 1
  {
    var a := Fired(l.actions[i], encoded, now, atomic);
    ReadyUpdated(l, i, a, u);
    UidsUpdated(l, i, a);
    if a.kind.Single? {
      ReadyDropped(Updated(l, i, a), i, atomic, queued, next, u);
    }
  }

  lemma FireCount(s: Loop, uid: nat, encoded: seq<bv8>, atomic: bool, u: nat)
    requires IdentityInv(s) && Count(s.queue, u) + (if u == uid then 1 else 0) == Ready(s.held, u)
    ensures var t := Fire(s, uid, encoded, atomic);
            Count(t.queue, u) == Ready(t.held, u)
  {
    var l := s.held;
    CountWithout(s.queue, uid, u);
    var i, j := Position(l.actions, uid), Position(l.gone, uid);
    if Pending(l.actions, uid) {
      CompletedReady(l, i, encoded, QueuedUids(s.queue), s.nextUid, s.now, atomic, u);
    } else if Pending(l.gone, uid) {
      assert Uids(l.gone)[j] == uid;
      ReadyStrayed(l, j, u);
    }
  }

  lemma CountStep(s: Loop, x: Step, atomic: bool)
    requires IdentityInv(s) && CountInv(s) && Enabled(s, x)
    requires forall h | h in s.queue && Adds(h) :: h.command.action.timer == Timer([], 0)
    ensures CountInv(Do(s, x, atomic))
  {
    var s' := Do(s, x, atomic);
    forall u: nat ensures Count(s'.queue, u) == Ready(s'.held, u) {
      match x
      case Create(kind, target, payload, startPaused) =>
        CountAppend(s.queue, Run(Add(Constructed(s.nextUid, kind, target, payload, s.now), startPaused)), u);
      case Post(c) =>
        CountAppend(s.queue, Run(c), u);
      case RunNext(encoded) =>
        var t, h := s.(queue := s.queue[1..]), s.queue[0];
        assert s.queue == [h] + t.queue && h in s.queue;
        if h.Run? {
          CommandCount(t, h.command, atomic, u);
        } else {
          FireCount(t, h.uid, encoded, atomic, u);
        }
      case Expire(i) =>
        CountAppend(s.queue, Completion(s.held.actions[i].uid), u);
        ReadyUpdated(s.held, i, Expired(s.held.actions[i]), u);
        PositionOf(s.held.actions, i);
      case Tick(d) =>
        CountAged(s.queue, s'.queue, d, u);
        assert Uids(s'.held.actions) == Uids(s.held.actions);
        SamePosition(s.held.actions, s'.held.actions, u);
    }
  }

  // ----- One action in any run -----

  predicate ClockInv(a: Action, now: nat) {
    && a.phase.resumeTime <= now
    && (a.kind.Sin? ==> a.phase.live == if a.paused then a.phase.accumulated else Elapsed(a, now))
  }

  predicate TimerInv(a: Action, atomic: bool) {
    && |a.timer.waits| <= 1
    && (!a.paused ==> !a.late && |a.timer.waits| + a.timer.ready >= 1)
    && (a.paused ==> (|a.timer.waits| + a.timer.ready > 0 <==> a.late))
    && (atomic ==> !a.late && |a.timer.waits| + a.timer.ready <= 1)
  }

  predicate ActionInv(a: Action, now: nat, atomic: bool) {
    ClockInv(a, now) && TimerInv(a, atomic)
  }

  predicate FreshInv(a: Action, now: nat) {
    && !a.paused && !a.late && a.timer == Timer([], 0)
    && a.phase.resumeTime <= now && a.phase.accumulated == 0 && a.phase.live == now - a.phase.resumeTime
  }

  predicate GoneInv(a: Action, atomic: bool) {
    a.timer.waits == [] && (atomic ==> a.timer.ready == 0)
  }

  lemma StartedKeeps(a: Action, startPaused: bool, now: nat, atomic: bool)
    requires FreshInv(a, now)
    ensures ActionInv(Started(a, startPaused, now, atomic), now, atomic)
  {
  }

  lemma ToggledKeeps(a: Action, now: nat, atomic: bool)
    requires ActionInv(a, now, atomic)
    ensures ActionInv(Toggled(a, now, atomic), now, atomic)
  {
  }

  lemma FiredKeeps(a: Action, payload: seq<bv8>, now: nat, atomic: bool)
    requires ActionInv(a, now, atomic) && a.timer.ready > 0 && !a.kind.Single?
    ensures ActionInv(Fired(a, payload, now, atomic), now, atomic)
  {
  }

  lemma ExpiredKeeps(a: Action, now: nat, atomic: bool)
    requires ActionInv(a, now, atomic) && a.timer.waits != []
    ensures ActionInv(Expired(a), now, atomic)
  {
    assert a.timer.waits[1..] == [];
  }

  lemma AgedKeeps(a: Action, now: nat, d: nat, atomic: bool)
    requires ActionInv(a, now, atomic)
    ensures ActionInv(Aged(a, d), now + d, atomic)
  {
  }

  predicate AllActions(actions: seq<Action>, now: nat, atomic: bool) {
    forall i | 0 <= i < |actions| :: ActionInv(actions[i], now, atomic)
  }

  predicate AllGone(gone: seq<Action>, atomic: bool) {
    forall j | 0 <= j < |gone| :: GoneInv(gone[j], atomic)
  }

  predicate AllFresh(queue: seq<Handler>, now: nat) {
    forall h | h in queue && Adds(h) :: FreshInv(h.command.action, now)
  }

  predicate ListInv(s: Loop, atomic: bool) {
    && AllActions(s.held.actions, s.now, atomic)
    && AllGone(s.held.gone, atomic)
    && AllFresh(s.queue, s.now)
    && s.snapshot == Projection(s.held.actions)
  }

  lemma DroppedKeeps(l: Lists, i: nat, now: nat, atomic: bool)
    requires i < |l.actions| && AllGone(l.gone, atomic)
    requires forall k | 0 <= k < |l.actions| && k != i :: ActionInv(l.actions[k], now, atomic)
    ensures AllActions(Dropped(l, i, atomic).actions, now, atomic) && AllGone(Dropped(l, i, atomic).gone, atomic)
  {
    var d := Dropped(l, i, atomic);
    assert forall k | 0 <= k < |d.actions| :: d.actions[k] == l.actions[if k < i then k else k + 1];
  }

  lemma RanKeeps(l: Lists, c: Command, now: nat, atomic: bool)
    requires AllActions(l.actions, now, atomic) && AllGone(l.gone, atomic)
    requires c.Add? ==> FreshInv(c.action, now)
    ensures AllActions(Ran(l, c, now, atomic).actions, now, atomic) && AllGone(Ran(l, c, now, atomic).gone, atomic)
    ensures !Publishes(l.actions, c) ==> Projection(Ran(l, c, now, atomic).actions) == Projection(l.actions)
  {
    if c.Add? {
      StartedKeeps(c.action, c.startPaused, now, atomic);
    } else if c.idx < |l.actions| {
      if c.Remove? {
        DroppedKeeps(l, c.idx, now, atomic);
      } else if c.TogglePause? {
        ToggledKeeps(l.actions[c.idx], now, atomic);
      }
    }
  }

  lemma FireKeeps(s: Loop, uid: nat, encoded: seq<bv8>, atomic: bool)
    requires ListInv(s, atomic)
    ensures ListInv(Fire(s, uid, encoded, atomic), atomic)
  {
    var l := s.held;
    if Pending(l.actions, uid) {
      var i := Position(l.actions, uid);
      var a := l.actions[i];
      var fired := Updated(l, i, Fired(a, encoded, s.now, atomic));
      if a.kind.Single? {
        DroppedKeeps(fired, i, s.now, atomic);
      } else {
        FiredKeeps(a, encoded, s.now, atomic);
      }
    }
  }

  /** Every step keeps each action's timer and clock in order, and the snapshot equal to the projection. */
  lemma ListStep(s: Loop, x: Step, atomic: bool)
    requires ListInv(s, atomic) && Enabled(s, x)
    ensures ListInv(Do(s, x, atomic), atomic)
  {
    var s' := Do(s, x, atomic);
    match x
    case Create(_, _, _, _) =>
    case Post(_) =>
    case RunNext(encoded) =>
      var t, h := s.(queue := s.queue[1..]), s.queue[0];
      assert h in s.queue && forall g | g in t.queue :: g in s.queue;
      if h.Run? {
        RanKeeps(s.held, h.command, s.now, atomic);
      } else {
        FireKeeps(t, h.uid, encoded, atomic);
      }
    case Expire(i) =>
      ExpiredKeeps(s.held.actions[i], s.now, atomic);
      assert Projection(s'.held.actions) == Projection(s.held.actions);
    case Tick(d) =>
      forall i | 0 <= i < |s.held.actions| ensures ActionInv(s'.held.actions[i], s'.now, atomic) {
        AgedKeeps(s.held.actions[i], s.now, d, atomic);
      }
      assert Projection(s'.held.actions) == Projection(s.held.actions);
  }
}
