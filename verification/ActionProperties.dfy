/** What the action scheduler guarantees in every run, and where the queue of the event loop gets in the way. */
module ActionProperties {
  import opened Basics
  import opened Scheduling
  import opened ActionRuns
  import opened ActionLog
  import E = ActionEffects

  // ----- Waits -----

  /** Every action has at most one armed wait, however cancellation behaves. */
  lemma {:induction false} OneArmedWait(run: seq<Step>, atomic: bool)
    requires Exec(Initial, run, atomic).Some?
    ensures var actions := Exec(Initial, run, atomic).value.held.actions;
            forall i | 0 <= i < |actions| :: |actions[i].timer.waits| <= 1
  {
    RunKeeps(Initial, run, atomic);
    var s := Exec(Initial, run, atomic).value;
    assert forall i | 0 <= i < |s.held.actions| :: ActionInv(s.held.actions[i], s.now, atomic);
  }

  /**
    With atomic cancellation a paused action has no wait and no completion in
    the queue, so it cannot send, and an unpaused one has exactly one of them.
   */
  lemma {:induction false} AtomicCancelSilences(run: seq<Step>, i: nat)
    requires Exec(Initial, run, true).Some? && i < |Exec(Initial, run, true).value.held.actions|
    ensures var s := Exec(Initial, run, true).value;
            var a := s.held.actions[i];
            |a.timer.waits| + Count(s.queue, a.uid) == if a.paused then 0 else 1
  {
    RunKeeps(Initial, run, true);
    var s := Exec(Initial, run, true).value;
    assert ActionInv(s.held.actions[i], s.now, true);
    PositionOf(s.held.actions, i);
  }

  /**
    A paused action has a wait or a completion in the queue, and so sends
    again, if and only if it was paused after a completion was queued; with
    atomic cancellation that never is.
   */
  lemma {:induction false} PausedSendsIffLate(run: seq<Step>, atomic: bool, i: nat)
    requires Exec(Initial, run, atomic).Some? && i < |Exec(Initial, run, atomic).value.held.actions|
    ensures var s := Exec(Initial, run, atomic).value;
            var a := s.held.actions[i];
            && (a.paused ==> (|a.timer.waits| + Count(s.queue, a.uid) > 0 <==> a.late))
            && (a.late ==> a.paused && !atomic)
  {
    RunKeeps(Initial, run, atomic);
    var s := Exec(Initial, run, atomic).value;
    assert ActionInv(s.held.actions[i], s.now, atomic);
    PositionOf(s.held.actions, i);
  }

  // ----- Transmissions -----

  /** Two sends of a repeating action are at least its period apart, across any pauses, if the first left no completion queued. */
  lemma {:induction false} SendsAreSpaced(run: seq<Step>, atomic: bool, m: nat, n: nat)
    requires Exec(Initial, run, atomic).Some? && m < n < |Exec(Initial, run, atomic).value.sends|
    requires var sends := Exec(Initial, run, atomic).value.sends; sends[m].uid == sends[n].uid
    ensures var sends := Exec(Initial, run, atomic).value.sends;
            && sends[n].time >= sends[m].time
            && (sends[m].left == 0 && sends[m].kind.Periodic? ==> sends[n].time >= sends[m].time + sends[m].kind.period)
            && (sends[m].left == 0 && sends[m].kind.Sin? ==> sends[n].time >= sends[m].time + sends[m].kind.interval)
            && (atomic ==> sends[m].left == 0)
  {
    RunKeeps(Initial, run, atomic);
    var s := Exec(Initial, run, atomic).value;
    assert Spaced(s.sends[m], s.sends[n]) && Shown(s.sends[m], atomic);
  }

  /** No wait expires while a completion of the same action is still queued. */
  ghost predicate Prompt(run: seq<Step>, atomic: bool)
    requires Exec(Initial, run, atomic).Some?
    decreases |run|
  {
    run != [] ==>
      var shorter, x := run[..|run| - 1], run[|run| - 1];
      && Prompt(shorter, atomic)
      && (x.Expire? ==> Exec(Initial, shorter, atomic).value.held.actions[x.i].timer.ready == 0)
  }

  predicate AtMostOneReady(l: Lists) {
    && (forall i | 0 <= i < |l.actions| :: l.actions[i].timer.ready <= 1)
    && (forall j | 0 <= j < |l.gone| :: l.gone[j].timer.ready <= 1)
  }

  lemma PromptCommand(l: Lists, c: Command, now: nat, atomic: bool)
    requires AtMostOneReady(l) && (c.Add? ==> c.action.timer.ready == 0)
    ensures AtMostOneReady(Ran(l, c, now, atomic))
  {
  }

  lemma PromptFire(s: Loop, uid: nat, encoded: seq<bv8>, atomic: bool)
    requires AtMostOneReady(s.held)
    ensures AtMostOneReady(Fire(s, uid, encoded, atomic).held)
    ensures var t := Fire(s, uid, encoded, atomic);
            s.sends <= t.sends && forall n | |s.sends| <= n < |t.sends| :: t.sends[n].left == 0
  {
    if Pending(s.held.actions, uid) {
      PromptCompleted(s.held, Position(s.held.actions, uid), encoded, s.now, atomic);
    }
  }

  lemma PromptCompleted(l: Lists, i: nat, encoded: seq<bv8>, now: nat, atomic: bool)
    requires AtMostOneReady(l) && i < |l.actions| && l.actions[i].timer.ready > 0
    ensures AtMostOneReady(Completed(l, i, encoded, now, atomic))
  {
  }

  lemma PromptStep(s: Loop, x: Step, atomic: bool)
    requires AtMostOneReady(s.held) && Enabled(s, x) && AllFresh(s.queue, s.now)
    requires x.Expire? ==> s.held.actions[x.i].timer.ready == 0
    ensures var t := Do(s, x, atomic);
            && AtMostOneReady(t.held)
            && s.sends <= t.sends && forall n | |s.sends| <= n < |t.sends| :: t.sends[n].left == 0
  {
    if x.RunNext? {
      assert s.queue[0] in s.queue;
      if s.queue[0].Run? {
        PromptCommand(s.held, s.queue[0].command, s.now, atomic);
      } else {
        PromptFire(s.(queue := s.queue[1..]), s.queue[0].uid, x.encoded, atomic);
      }
    }
  }

  /** A loop that looks at its timers only once it has run what they queued never leaves a second completion. */
  lemma {:induction false} PromptLoopLeavesNone(run: seq<Step>, atomic: bool)
    requires Exec(Initial, run, atomic).Some? && Prompt(run, atomic)
    ensures var s := Exec(Initial, run, atomic).value;
            AtMostOneReady(s.held) && forall n | 0 <= n < |s.sends| :: s.sends[n].left == 0
  {
    if run != [] {
      var shorter := run[..|run| - 1];
      PromptLoopLeavesNone(shorter, atomic);
      RunKeeps(Initial, shorter, atomic);
      PromptStep(Exec(Initial, shorter, atomic).value, run[|run| - 1], atomic);
    }
  }

  /**
    A single action fires once from the list and is then destroyed; any further
    firing is of a completion that was already queued, and with atomic
    cancellation there is none.
   */
  lemma {:induction false} SingleSendsOnce(run: seq<Step>, atomic: bool, n: nat)
    requires Exec(Initial, run, atomic).Some? && n < |Exec(Initial, run, atomic).value.sends|
    requires var d := Exec(Initial, run, atomic).value.sends[n]; d.kind.Single? && !d.stray
    ensures var s := Exec(Initial, run, atomic).value;
            && (forall m | 0 <= m < |s.sends| && m != n && s.sends[m].uid == s.sends[n].uid :: m > n && s.sends[m].stray && !atomic)
            && (forall i | 0 <= i < |s.held.actions| :: s.held.actions[i].uid != s.sends[n].uid)
  {
    RunKeeps(Initial, run, atomic);
    var s := Exec(Initial, run, atomic).value;
    forall i | 0 <= i < |s.held.actions| ensures s.held.actions[i].uid != s.sends[n].uid {
      assert Consistent(s.sends[n], s.held.actions[i], s.now);
    }
    forall m | 0 <= m < |s.sends| && m != n && s.sends[m].uid == s.sends[n].uid
      ensures m > n && s.sends[m].stray && !atomic
    {
      assert m < n ==> Spaced(s.sends[m], s.sends[n]);
      assert n < m ==> Spaced(s.sends[n], s.sends[m]);
      assert Shown(s.sends[m], atomic);
    }
  }

  /**
    When a sine action in the list fires, its clock reads the unpaused time
    since construction if and only if it is not paused, or was resumed or
    constructed at this very time; otherwise it is ahead by the time since then.
   */
  lemma {:induction false} SineClockExact(run: seq<Step>, atomic: bool, n: nat)
    requires Exec(Initial, run, atomic).Some? && n < |Exec(Initial, run, atomic).value.sends|
    requires var d := Exec(Initial, run, atomic).value.sends[n]; d.kind.Sin? && !d.stray
    ensures var d := Exec(Initial, run, atomic).value.sends[n];
            && d.resumeTime <= d.time
            && (d.elapsed == d.live <==> !d.paused || d.time == d.resumeTime)
            && (d.paused ==> d.elapsed == d.live + (d.time - d.resumeTime))
  {
    RunKeeps(Initial, run, atomic);
    assert Shown(Exec(Initial, run, atomic).value.sends[n], atomic);
  }

  /** With atomic cancellation the clock always reads the unpaused time. */
  lemma {:induction false} SineClockIsUnpausedTime(run: seq<Step>, n: nat)
    requires Exec(Initial, run, true).Some? && n < |Exec(Initial, run, true).value.sends|
    requires Exec(Initial, run, true).value.sends[n].kind.Sin?
    ensures var d := Exec(Initial, run, true).value.sends[n];
            d.elapsed == d.live && !d.stray
  {
    RunKeeps(Initial, run, true);
    assert Shown(Exec(Initial, run, true).value.sends[n], true);
  }

  /** Between handlers the published snapshot shows the list, entry by entry. */
  lemma {:induction false} SnapshotIsProjection(run: seq<Step>, atomic: bool)
    requires Exec(Initial, run, atomic).Some?
    ensures var s := Exec(Initial, run, atomic).value;
            && |s.snapshot| == |s.held.actions|
            && forall i | 0 <= i < |s.snapshot| :: ShowsAction(s.snapshot[i], i, s.held.actions[i])
  {
    RunKeeps(Initial, run, atomic);
    var s := Exec(Initial, run, atomic).value;
    forall i | 0 <= i < |s.snapshot| ensures ShowsAction(s.snapshot[i], i, s.held.actions[i]) {
      E.InfoMeans(s.held.actions[i], i);
    }
  }

  /** The entry shows the action at that position: identity of the message, kind, state, times and parameters. */
  predicate ShowsAction(info: ActionInfo, idx: nat, a: Action) {
    && info.idx == idx && info.target == a.target && info.paused == a.paused && info.lastSent == a.sent
    && (match a.kind
        case Single => info.typeName == "Single" && !info.isPeriodic && info.period == 0
        case Periodic(p) => info.typeName == "Periodic" && info.isPeriodic && info.period == p
        case Sin(interval, amplitude, period, offset) =>
          info.typeName == "Sin" && info.isPeriodic && info.period == interval
          && info.sinAmplitude == amplitude && info.sinPeriod == period && info.sinOffset == offset)
  }

  // ----- Runs of the program's own loop -----

  lemma Extend(s: Loop, run: seq<Step>, t: Loop, x: Step, atomic: bool)
    requires Exec(s, run, atomic) == Some(t) && Enabled(t, x)
    ensures Exec(s, run + [x], atomic) == Some(Do(t, x, atomic))
  {
    assert (run + [x])[..|run + [x]| - 1] == run;
  }

  const Goal := Target("vcan0", 1, "")

  /** The only action, new at time 0. */
  function Only(kind: Kind, waits: seq<nat>, ready: nat, now: nat): Action {
    Action(0, kind, Goal, [], false, false, None, Timer(waits, ready), Phase(0, 0, now))
  }

  /** A new action of that kind, constructed and added at time 0. */
  lemma Alone(kind: Kind) returns (run: seq<Step>, s: Loop)
    ensures Reached(run, s)
    ensures s.held == Lists([Only(kind, [PeriodOf(kind)], 0, 0)], []) && s.queue == [] && s.now == 0 && s.sends == []
  {
    s, run := Initial, [];
    var create := Create(kind, Goal, [], false);
    Extend(Initial, run, s, create, false);
    run, s := run + [create], Do(s, create, false);
    assert s.queue == [Run(Add(Constructed(0, kind, Goal, [], 0), false))];
    Extend(Initial, run, s, RunNext([]), false);
    run, s := run + [RunNext([])], Do(s, RunNext([]), false);
  }

  ghost predicate Reached(run: seq<Step>, s: Loop) {
    Exec(Initial, run, false) == Some(s)
  }

  /** The wait of the only action is over. */
  lemma OnlyExpires(run: seq<Step>, s: Loop, kind: Kind, wait: nat, ready: nat) returns (more: seq<Step>, t: Loop)
    requires Reached(run, s) && s.held == Lists([Only(kind, [wait], ready, s.now)], []) && s.now >= wait
    ensures Reached(more, t)
    ensures t == s.(held := Lists([Only(kind, [], ready + 1, s.now)], []), queue := s.queue + [Completion(0)])
  {
    Extend(Initial, run, s, Expire(0), false);
    more, t := run + [Expire(0)], Do(s, Expire(0), false);
    assert Expired(Only(kind, [wait], ready, s.now)).timer.waits == [];
  }

  lemma OnlyAges(run: seq<Step>, s: Loop, kind: Kind, waits: seq<nat>, ready: nat, d: nat) returns (more: seq<Step>, t: Loop)
    requires Reached(run, s) && s.held == Lists([Only(kind, waits, ready, s.now)], [])
    requires forall i | 0 <= i < |s.queue| :: !Adds(s.queue[i])
    ensures Reached(more, t)
    ensures t == s.(held := Lists([Only(kind, waits, ready, s.now + d)], []), now := s.now + d)
  {
    Extend(Initial, run, s, Tick(d), false);
    more, t := run + [Tick(d)], Do(s, Tick(d), false);
    assert t.queue == s.queue;
    assert t.held.actions == [Only(kind, waits, ready, s.now + d)];
  }

  function Runs(commands: seq<Command>): (r: seq<Handler>)
    ensures |r| == |commands|
  {
    seq(|commands|, i requires 0 <= i < |commands| => Run(commands[i]))
  }

  lemma Posted(run: seq<Step>, s: Loop, commands: seq<Command>) returns (more: seq<Step>, t: Loop)
    requires Reached(run, s) && forall i | 0 <= i < |commands| :: !commands[i].Add?
    ensures Reached(more, t)
    ensures t == s.(queue := s.queue + Runs(commands))
  {
    more, t := run, s;
    for n := 0 to |commands|
      invariant Reached(more, t)
      invariant t == s.(queue := s.queue + Runs(commands[..n]))
    {
      Extend(Initial, more, t, Post(commands[n]), false);
      assert Runs(commands[..n + 1]) == Runs(commands[..n]) + [Run(commands[n])];
      more, t := more + [Post(commands[n])], Do(t, Post(commands[n]), false);
    }
    assert commands[..|commands|] == commands;
  }

  /** A new action whose first wait is over, with the given commands queued before its completion. */
  lemma Queued(kind: Kind, commands: seq<Command>) returns (run: seq<Step>, s: Loop)
    requires forall i | 0 <= i < |commands| :: !commands[i].Add?
    ensures Reached(run, s)
    ensures s.held == Lists([Only(kind, [], 1, PeriodOf(kind))], []) && s.sends == [] && s.now == PeriodOf(kind)
    ensures s.queue == Runs(commands) + [Completion(0)]
  {
    var wait := PeriodOf(kind);
    run, s := Alone(kind);
    run, s := OnlyAges(run, s, kind, [wait], 0, wait);
    run, s := Posted(run, s, commands);
    run, s := OnlyExpires(run, s, kind, wait, 0);
  }

  /** The only action is paused, and resumed. */
  lemma OnlyPauses(run: seq<Step>, s: Loop, a: Action) returns (more: seq<Step>, t: Loop)
    requires Reached(run, s) && s.held == Lists([a], []) && !a.paused && s.queue != [] && s.queue[0] == Run(TogglePause(0))
    ensures Reached(more, t) && t.queue == s.queue[1..] && t.now == s.now
    ensures t.held == Lists([Paused(a, s.now, false)], []) && t.sends == s.sends
  {
    Extend(Initial, run, s, RunNext([]), false);
    more, t := run + [RunNext([])], Do(s, RunNext([]), false);
  }

  lemma OnlyResumes(run: seq<Step>, s: Loop, a: Action) returns (more: seq<Step>, t: Loop)
    requires Reached(run, s) && s.held == Lists([a], []) && a.paused && s.queue != [] && s.queue[0] == Run(TogglePause(0))
    ensures Reached(more, t) && t.queue == s.queue[1..] && t.now == s.now
    ensures t.held == Lists([Resumed(a, s.now, false)], []) && t.sends == s.sends
  {
    Extend(Initial, run, s, RunNext([]), false);
    more, t := run + [RunNext([])], Do(s, RunNext([]), false);
  }

  /** Its completion is run. */
  lemma OnlyFires(run: seq<Step>, s: Loop, a: Action) returns (more: seq<Step>, t: Loop)
    requires Reached(run, s) && s.held == Lists([a], []) && a.timer.ready > 0 && s.queue != [] && s.queue[0] == Completion(a.uid)
    ensures Reached(more, t) && t.queue == s.queue[1..] && t.now == s.now
    ensures t.held == Completed(s.held, 0, [], s.now, false) && t.sends == s.sends + [SendOf(a, s.now, false)]
  {
    Extend(Initial, run, s, RunNext([]), false);
    more, t := run + [RunNext([])], Do(s, RunNext([]), false);
    assert Position([a], a.uid) == 0;
  }

  /** It is removed, and a completion of it is run after that. */
  lemma OnlyLeaves(run: seq<Step>, s: Loop, a: Action) returns (more: seq<Step>, t: Loop)
    requires Reached(run, s) && s.held == Lists([a], []) && s.queue != [] && s.queue[0] == Run(Remove(0))
    ensures Reached(more, t) && t.queue == s.queue[1..] && t.now == s.now
    ensures t.held == Lists([], [a.(timer := Cancelled(a.timer, false))]) && t.snapshot == [] && t.sends == s.sends
  {
    Extend(Initial, run, s, RunNext([]), false);
    more, t := run + [RunNext([])], Do(s, RunNext([]), false);
  }

  lemma OnlyStrays(run: seq<Step>, s: Loop, a: Action) returns (more: seq<Step>, t: Loop)
    requires Reached(run, s) && s.held == Lists([], [a]) && a.timer.ready > 0 && s.queue != [] && s.queue[0] == Completion(a.uid)
    ensures Reached(more, t) && t.queue == s.queue[1..] && t.now == s.now
    ensures t.held.actions == [] && t.snapshot == [] && t.sends == s.sends + [SendOf(a, s.now, true)]
  {
    Extend(Initial, run, s, RunNext([]), false);
    more, t := run + [RunNext([])], Do(s, RunNext([]), false);
    assert Position([a], a.uid) == 0;
  }

  /** A periodic action paused while its completion is queued sends all the same, and keeps its timer running. */
  lemma PausedActionCanSend() returns (run: seq<Step>)
    ensures Exec(Initial, run, false).Some?
    ensures var s := Exec(Initial, run, false).value;
            |s.held.actions| == 1 && s.held.actions[0].paused && |s.sends| == 1 && s.sends[0].paused
            && s.held.actions[0].timer.waits != []
  {
    var s;
    var a := Only(Periodic(1), [], 1, 1);
    run, s := Queued(Periodic(1), [TogglePause(0)]);
    run, s := OnlyPauses(run, s, a);
    run, s := OnlyFires(run, s, Paused(a, 1, false));
  }

  /** A sine action paused while its completion is queued encodes with a clock that has counted its life twice. */
  lemma LateSineReadsWrongClock() returns (run: seq<Step>)
    ensures Exec(Initial, run, false).Some?
    ensures var s := Exec(Initial, run, false).value;
            |s.sends| == 1 && s.sends[0].kind.Sin? && !s.sends[0].stray && s.sends[0].live == 1 && s.sends[0].elapsed == 2
  {
    var s;
    var a := Only(Sin(1, 1.0, 1000, 0.0), [], 1, 1);
    run, s := Queued(Sin(1, 1.0, 1000, 0.0), [TogglePause(0)]);
    run, s := OnlyPauses(run, s, a);
    run, s := OnlyFires(run, s, Paused(a, 1, false));
  }

  /** An action removed while its completion is queued fires all the same, after it was destroyed. */
  lemma RemovedActionCanFire() returns (run: seq<Step>)
    ensures Exec(Initial, run, false).Some?
    ensures var s := Exec(Initial, run, false).value;
            s.held.actions == [] && s.snapshot == [] && |s.sends| == 1 && s.sends[0].stray
  {
    var s;
    var a := Only(Periodic(1), [], 1, 1);
    run, s := Queued(Periodic(1), [Remove(0)]);
    run, s := OnlyLeaves(run, s, a);
    run, s := OnlyStrays(run, s, a.(timer := Cancelled(a.timer, false)));
  }

  /** The only action, paused while its completion and a second toggle are queued. */
  lemma PausedFirst(kind: Kind) returns (run: seq<Step>, s: Loop)
    ensures Reached(run, s)
    ensures s.held == Lists([Paused(Only(kind, [], 1, PeriodOf(kind)), PeriodOf(kind), false)], [])
    ensures s.queue == [Run(TogglePause(0)), Completion(0)] && s.sends == [] && s.now == PeriodOf(kind)
  {
    run, s := Queued(kind, [TogglePause(0), TogglePause(0)]);
    assert s.queue == [Run(TogglePause(0)), Run(TogglePause(0)), Completion(0)];
    run, s := OnlyPauses(run, s, Only(kind, [], 1, PeriodOf(kind)));
  }

  /** The only action, paused and resumed while its completion is queued. */
  lemma PausedAndResumed(kind: Kind) returns (run: seq<Step>, s: Loop)
    requires !kind.Sin?
    ensures Reached(run, s)
    ensures s.held == Lists([Only(kind, [2 * PeriodOf(kind)], 1, PeriodOf(kind))], []) && s.queue == [Completion(0)]
    ensures s.sends == [] && s.now == PeriodOf(kind)
  {
    run, s := PausedFirst(kind);
    run, s := OnlyResumes(run, s, Paused(Only(kind, [], 1, PeriodOf(kind)), PeriodOf(kind), false));
  }

  lemma NotPrompt(run: seq<Step>, s: Loop, n: nat)
    requires Reached(run, s) && n < |s.sends| && s.sends[n].left > 0
    ensures !Prompt(run, false)
  {
    if Prompt(run, false) {
      PromptLoopLeavesNone(run, false);
    }
  }

  /** A single action paused and resumed while its completion is queued arms a second wait, and fires twice if that is over before the completion is run. */
  lemma SingleCanFireTwice() returns (run: seq<Step>)
    ensures Exec(Initial, run, false).Some?
    ensures var sends := Exec(Initial, run, false).value.sends;
            |sends| == 2 && sends[0].uid == sends[1].uid && sends[0].kind == Single && !sends[0].stray && sends[1].stray
    ensures !Prompt(run, false)
  {
    var s;
    var a := Only(Single, [], 2, 0);
    run, s := PausedAndResumed(Single);
    run, s := OnlyExpires(run, s, Single, 0, 1);
    run, s := OnlyFires(run, s, a);
    var g := Dropped(Lists([Fired(a, [], 0, false)], []), 0, false).gone[0];
    assert s.held == Lists([], [g]) && s.queue == [Completion(0)];
    run, s := OnlyStrays(run, s, g);
    assert s.sends[0].left == 1;
    NotPrompt(run, s, 0);
  }

  /**
    Paused and resumed while its completion is queued, in a loop that then
    stalls until the new wait is over, a periodic action sends twice at once.
   */
  lemma StalledLoopCrowdsSends() returns (run: seq<Step>)
    ensures Exec(Initial, run, false).Some?
    ensures var sends := Exec(Initial, run, false).value.sends;
            |sends| == 2 && sends[0].uid == sends[1].uid && sends[0].kind == Periodic(10)
            && sends[0].time == sends[1].time && sends[0].left == 1
    ensures !Prompt(run, false)
  {
    var s;
    var a := Only(Periodic(10), [], 2, 20);
    run, s := PausedAndResumed(Periodic(10));
    run, s := OnlyAges(run, s, Periodic(10), [20], 1, 10);
    run, s := OnlyExpires(run, s, Periodic(10), 20, 1);
    run, s := OnlyFires(run, s, a);
    assert s.queue == [Completion(0)];
    run, s := OnlyFires(run, s, Fired(a, [], 20, false));
    NotPrompt(run, s, 0);
  }
}
