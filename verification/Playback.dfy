/**
  The playback loop against the controller, as interleaved steps of the player
  thread, the user interface and the clock. A step is one locked section or one
  decision of the player.
 */
module Playback {
  import opened Basics
  import opened PlaybackControl

  datatype Kind = Data | Raw | Other

  /** A recorded message; `sound` says that its schema, its bytes and its fields can be read. */
  datatype Message = Message(kind: Kind, iface: string, name: string, logTime: nat, sound: bool)

  /** Which sinks the caller supplied, and whether there is a controller. */
  datatype Setup = Setup(log: seq<Message>, onFrame: bool, onSend: bool, controlled: bool)

  datatype Pc =
    | Next         // loop head
    | AskAny       // any_running()
    | WaitTest     // evaluating the wait predicate, under the mutex
    | Blocked      // waiting for a notification
    | AskStopped   // is_stopped() after the wait
    | Pace         // calibrating and computing the target
    | SleepTest    // evaluating the stop predicate, under the mutex
    | Asleep       // waiting for the target time or a notification
    | AskRunning   // is_running(iface)
    | AskEnabled   // is_message_enabled(iface, name)
    | Emit         // handing the message to its sink
    | Over

  datatype Sink = OnFrame | OnSend

  /**
    A delivery, with its sink, the calibration it was paced by, whether the calibrating
    message and its own had to wait for an interface to run, and when the last
    such wait had ended.
   */
  datatype Delivery = Delivery(index: nat, sink: Sink, time: nat, calIndex: nat, calTime: nat, calWaited: bool, waited: bool, resumed: nat)

  /** The controller; `pending` says that the user interface has changed it and still has to notify. */
  datatype Control = Control(states: seq<Item>, stopped: bool, messages: map<string, seq<Item>>, pending: bool)

  /** The timing reference: the calibrating message and time, whether it had waited, and the last wait for a running interface. */
  datatype Timing = Timing(started: bool, calIndex: nat, calTime: nat, calWaited: bool, waited: bool, resumed: nat)

  /** The player thread, the clock and the controller. `woken` is a notification on its way to the player. */
  datatype Player = Player(pc: Pc, i: nat, t: Timing, woken: bool, now: nat, out: seq<Delivery>, ctl: Control)

  datatype Action =
    | Advance                                  // the player's next step
    | Timeout                                  // the player wakes at its target time
    | Wake                                     // the player wakes on a notification
    | Spurious                                 // the player wakes for no reason
    | Tick(d: nat)
    | Toggle(iface: string)
    | ToggleMessage(iface: string, idx: nat)
    | Stop
    | NotifyAll

  predicate Deliverable(u: Setup, k: nat)
    requires k < |u.log|
  {
    && u.log[k].sound
    && ((u.log[k].kind.Data? && u.onFrame) || (u.log[k].kind.Raw? && u.onSend))
  }

  /** The interface runs and the filter lets the message through. */
  predicate Playing(u: Setup, p: Player, k: nat)
    requires k < |u.log|
  {
    u.controlled ==> IsOn(p.ctl.states, u.log[k].iface, false) && Passes(p.ctl.messages, u.log[k].iface, u.log[k].name)
  }

  predicate Chronological(log: seq<Message>) {
    forall i, j | 0 <= i < j < |log| :: log[i].logTime <= log[j].logTime
  }

  function Offset(log: seq<Message>, c: nat, k: nat): int
    requires c < |log| && k < |log|
  {
    log[k].logTime - log[c].logTime
  }

  function Start(states: seq<Item>, messages: map<string, seq<Item>>, now: nat): Player {
    Player(Next, 0, Timing(false, 0, now, false, false, now), false, now, [], Control(states, false, messages, false))
  }

  predicate Enabled(u: Setup, p: Player, a: Action) {
    match a
    case Advance => !p.pc.Blocked? && !p.pc.Asleep? && !p.pc.Over?
    case Timeout => p.pc.Asleep? && p.i < |u.log| && p.t.calIndex < |u.log| && p.now >= p.t.calTime + Offset(u.log, p.t.calIndex, p.i)
    case Wake => u.controlled && (p.pc.Blocked? || p.pc.Asleep?) && p.woken
    case Spurious => u.controlled && (p.pc.Blocked? || p.pc.Asleep?)
    case Tick(_) => true
    case Toggle(_) => u.controlled && !p.ctl.pending
    case ToggleMessage(_, _) => u.controlled && !p.ctl.pending
    case Stop => u.controlled && !p.ctl.pending
    case NotifyAll => p.ctl.pending
  }

  /** The delivery of the current message: data messages go to the frame sink, raw ones to the sender. */
  function Emitted(u: Setup, p: Player): Delivery
    requires p.i < |u.log|
  {
    Delivery(p.i, if u.log[p.i].kind.Data? then OnFrame else OnSend, p.now,
             p.t.calIndex, p.t.calTime, p.t.calWaited, p.t.waited, p.t.resumed)
  }

  function Skip(p: Player): Player {
    p.(pc := Next, i := p.i + 1)
  }

  /** The player's next step, given what the controller would answer: any running, this running, this enabled. */
  function Moved(u: Setup, p: Player, any: bool, runs: bool, passes: bool): Player {
    if p.pc.Next? then
      if p.i >= |u.log| then p.(pc := Over)
      else if u.log[p.i].kind.Other? then Skip(p)
      else p.(pc := if u.controlled then AskAny else Pace, t := p.t.(waited := false))
    else if p.i >= |u.log| then p
    else match p.pc
      case AskAny => p.(pc := if any then Pace else WaitTest)
      case WaitTest =>
        if p.ctl.stopped || any then p.(pc := AskStopped, t := p.t.(resumed := p.now)) else p.(pc := Blocked, woken := false)
      case AskStopped => if p.ctl.stopped then p.(pc := Over) else p.(pc := Pace, t := p.t.(started := false, waited := true))
      case Pace =>
        var q := if p.t.started then p else p.(t := p.t.(started := true, calIndex := p.i, calTime := p.now, calWaited := p.t.waited));
        q.(pc := if u.controlled then SleepTest else Asleep)
      case SleepTest => if p.ctl.stopped then p.(pc := Over) else p.(pc := Asleep, woken := false)
      case AskRunning => if runs then p.(pc := AskEnabled) else Skip(p)
      case AskEnabled => if passes then p.(pc := Emit) else Skip(p)
      case Emit =>
        if Deliverable(u, p.i)
        then Skip(p.(out := p.out + [Emitted(u, p)]))
        else Skip(p)
      case _ => p
  }

  function Advanced(u: Setup, p: Player): Player {
    Moved(u, p, AnyOn(p.ctl.states),
          p.i < |u.log| && IsOn(p.ctl.states, u.log[p.i].iface, false),
          p.i < |u.log| && Passes(p.ctl.messages, u.log[p.i].iface, u.log[p.i].name))
  }

  function Do(u: Setup, p: Player, a: Action): Player
    requires Enabled(u, p, a)
  {
    match a
    case Advance => Advanced(u, p)
    case Timeout =>
      if !u.controlled then p.(pc := Emit) else if p.ctl.stopped then p.(pc := Over) else p.(pc := AskRunning)
    case Wake => p.(pc := if p.pc.Blocked? then WaitTest else SleepTest)
    case Spurious => p.(pc := if p.pc.Blocked? then WaitTest else SleepTest)
    case Tick(d) => p.(now := p.now + d)
    case Toggle(iface) => p.(ctl := p.ctl.(states := Toggled(p.ctl.states, iface), pending := true))
    case ToggleMessage(iface, idx) =>
      if iface in p.ctl.messages
      then p.(ctl := p.ctl.(messages := p.ctl.messages[iface := ToggledAt(p.ctl.messages[iface], idx)]))
      else p
    case Stop => p.(ctl := p.ctl.(stopped := true, pending := true))
    case NotifyAll => p.(ctl := p.ctl.(pending := false), woken := true)
  }

  function Exec(u: Setup, p: Player, run: seq<Action>): Option<Player> {
    if run == [] then Some(p)
    else
      var before := Exec(u, p, run[..|run| - 1]);
      if before.Some? && Enabled(u, before.value, run[|run| - 1]) then Some(Do(u, before.value, run[|run| - 1])) else None
  }

  // ----- The invariant -----

  /** The player has fixed the pace of the current message. */
  predicate Paced(pc: Pc) {
    pc.SleepTest? || pc.Asleep? || pc.AskRunning? || pc.AskEnabled? || pc.Emit?
  }

  /** The current message is due. */
  predicate Due(pc: Pc) {
    pc.AskRunning? || pc.AskEnabled? || pc.Emit?
  }

  predicate Calibrated(u: Setup, p: Player) {
    && TimingInv(u, p)
    && (Due(p.pc) ==> p.now >= p.t.calTime + Offset(u.log, p.t.calIndex, p.i))
  }

  predicate TimingInv(u: Setup, p: Player) {
    && (p.t.started ==> p.t.calIndex < |u.log| && p.t.calIndex <= p.i && p.t.calTime <= p.now)
    && (p.t.started && !p.pc.AskStopped? && !p.pc.Over? ==> p.t.resumed <= p.t.calTime)
    && (Paced(p.pc) ==> p.t.started)
    && (!p.pc.Next? && !p.pc.Over? ==> p.i < |u.log|)
    && (Paced(p.pc) && p.t.waited ==> p.t.calIndex == p.i)
    && (p.pc.Pace? && p.t.waited ==> !p.t.started)
    && (p.pc.AskAny? || p.pc.WaitTest? || p.pc.Blocked? || p.pc.AskStopped? ==> !p.t.waited)
    && p.t.resumed <= p.now
  }

  predicate OutInv(u: Setup, p: Player) {
    && (forall n | 0 <= n < |p.out| ::
          var d := p.out[n];
          && d.calIndex <= d.index < |u.log| && d.index < p.i && Deliverable(u, d.index)
          && d.sink == (if u.log[d.index].kind.Data? then OnFrame else OnSend)
          && (d.waited ==> d.calIndex == d.index) && d.resumed <= d.calTime
          && d.time <= p.now && d.time >= d.calTime + Offset(u.log, d.calIndex, d.index))
    && (forall m, n | 0 <= m < n < |p.out| :: p.out[m].index < p.out[n].index)
  }

  predicate SameCalibration(d: Delivery, e: Delivery) {
    d.calIndex == e.calIndex && d.calTime == e.calTime && d.calWaited == e.calWaited
  }

  /** Between the two deliveries the player waited for a running interface, and the message it waited with set the new pace. */
  predicate Recalibrated(d: Delivery, e: Delivery) {
    e.calWaited && d.index < e.calIndex && d.time <= e.resumed <= e.calTime
  }

  /** Every delivery was paced by the present reference, or came before the wait that set it. */
  predicate Referenced(p: Player, d: Delivery) {
    && (p.t.started ==>
          || (d.calIndex == p.t.calIndex && d.calTime == p.t.calTime && d.calWaited == p.t.calWaited)
          || (p.t.calWaited && d.index < p.t.calIndex && d.time <= p.t.resumed))
    && (!p.t.started ==> p.pc.Pace? && p.t.waited && d.time <= p.t.resumed)
    && (p.pc.AskStopped? ==> d.time <= p.t.resumed)
  }

  /** Up to the first reference there was nothing to play. */
  predicate NothingBefore(u: Setup, p: Player) {
    && (p.t.started && !p.t.calWaited ==> OthersUpTo(u, p.t.calIndex))
    && (!p.t.started && !(p.pc.Pace? && p.t.waited) ==> OthersUpTo(u, p.i))
  }

  predicate OthersUpTo(u: Setup, n: nat) {
    forall k | 0 <= k < n && k < |u.log| :: u.log[k].kind.Other?
  }

  predicate PaceInv(u: Setup, p: Player) {
    && (forall n | 0 <= n < |p.out| :: Referenced(p, p.out[n]))
    && (forall m, n | 0 <= m < n < |p.out| :: SameCalibration(p.out[m], p.out[n]) || Recalibrated(p.out[m], p.out[n]))
    && (forall n | 0 <= n < |p.out| :: !p.out[n].calWaited ==> OthersUpTo(u, p.out[n].calIndex))
    && NothingBefore(u, p)
  }

  /** A sleeping player whose wait predicate holds is about to be notified. */
  predicate WakeInv(p: Player) {
    && (p.pc.Blocked? && (p.ctl.stopped || AnyOn(p.ctl.states)) ==> p.woken || p.ctl.pending)
    && (p.pc.Asleep? && p.ctl.stopped ==> p.woken || p.ctl.pending)
  }

  predicate Inv(u: Setup, p: Player) {
    Calibrated(u, p) && OutInv(u, p) && PaceInv(u, p) && WakeInv(p) && (!u.controlled ==> !p.ctl.stopped && !p.ctl.pending)
  }

  predicate Waits(pc: Pc) {
    pc.AskAny? || pc.WaitTest? || pc.AskStopped? || pc.Pace?
  }

  lemma WaitKeepsTiming(u: Setup, p: Player, any: bool, runs: bool, passes: bool)
    requires TimingInv(u, p) && Waits(p.pc)
    ensures TimingInv(u, Moved(u, p, any, runs, passes))
  {
  }

  lemma ServeKeepsTiming(u: Setup, p: Player, any: bool, runs: bool, passes: bool)
    requires TimingInv(u, p) && !Waits(p.pc)
    ensures TimingInv(u, Moved(u, p, any, runs, passes))
  {
    var q := Moved(u, p, any, runs, passes);
    assert q.t == p.t || (p.pc.Next? && q.t == p.t.(waited := false));
    assert q.pc == p.pc || q.pc.Next? || q.pc.Over? || q.pc.AskAny? || q.pc.Pace? || (Paced(p.pc) && Paced(q.pc));
    assert q.i == p.i || q.pc.Next?;
  }

  lemma MovedKeepsCalibrated(u: Setup, p: Player, any: bool, runs: bool, passes: bool)
    requires Calibrated(u, p)
    ensures Calibrated(u, Moved(u, p, any, runs, passes))
  {
    var q := Moved(u, p, any, runs, passes);
    if Waits(p.pc) {
      WaitKeepsTiming(u, p, any, runs, passes);
    } else {
      ServeKeepsTiming(u, p, any, runs, passes);
    }
    assert Due(q.pc) ==> Due(p.pc) && q.i == p.i && q.t == p.t && q.now == p.now;
  }

  lemma MovedOut(u: Setup, p: Player, any: bool, runs: bool, passes: bool)
    ensures var q := Moved(u, p, any, runs, passes);
            && (q.out == p.out || (p.pc.Emit? && p.i < |u.log| && Deliverable(u, p.i) && q.out == p.out + [Emitted(u, p)] && q.t == p.t))
            && q.now == p.now && p.i <= q.i && (q.out != p.out ==> q.i == p.i + 1)
  {
  }

  lemma MovedKeepsOut(u: Setup, p: Player, any: bool, runs: bool, passes: bool)
    requires Calibrated(u, p) && OutInv(u, p)
    ensures OutInv(u, Moved(u, p, any, runs, passes))
  {
    MovedOut(u, p, any, runs, passes);
  }

  /** How a step changes the timing reference. */
  lemma MovedTiming(u: Setup, p: Player, any: bool, runs: bool, passes: bool)
    requires TimingInv(u, p)
    ensures var q := Moved(u, p, any, runs, passes);
            || (p.pc.WaitTest? && q.t == p.t.(resumed := p.now) && !q.pc.Pace?)
            || (p.pc.AskStopped? && q.pc.Pace? && q.t == p.t.(started := false, waited := true))
            || (p.pc.Pace? && !p.t.started && !q.pc.Pace? &&
                q.t == p.t.(started := true, calIndex := p.i, calTime := p.now, calWaited := p.t.waited))
            || (q.t == p.t.(waited := q.t.waited) && (q.pc.Pace? ==> !q.t.waited) && !q.pc.AskStopped? && (p.pc.Pace? ==> p.t.started))
  {
  }

  lemma ReferenceMoves(u: Setup, p: Player, any: bool, runs: bool, passes: bool, d: Delivery)
    requires TimingInv(u, p) && Referenced(p, d) && d.index < p.i && d.time <= p.now
    ensures Referenced(Moved(u, p, any, runs, passes), d)
  {
    MovedTiming(u, p, any, runs, passes);
  }

  lemma MovedKeepsNothing(u: Setup, p: Player, any: bool, runs: bool, passes: bool)
    requires TimingInv(u, p) && NothingBefore(u, p)
    ensures NothingBefore(u, Moved(u, p, any, runs, passes))
  {
    MovedTiming(u, p, any, runs, passes);
  }

  lemma MovedKeepsPace(u: Setup, p: Player, any: bool, runs: bool, passes: bool)
    requires Calibrated(u, p) && OutInv(u, p) && PaceInv(u, p)
    ensures PaceInv(u, Moved(u, p, any, runs, passes))
  {
    var q := Moved(u, p, any, runs, passes);
    MovedOut(u, p, any, runs, passes);
    MovedKeepsNothing(u, p, any, runs, passes);
    forall n | 0 <= n < |p.out| ensures Referenced(q, p.out[n]) {
      ReferenceMoves(u, p, any, runs, passes, p.out[n]);
    }
    if q.out != p.out {
      forall m | 0 <= m < |p.out| ensures SameCalibration(p.out[m], Emitted(u, p)) || Recalibrated(p.out[m], Emitted(u, p)) {
        assert Referenced(p, p.out[m]);
      }
    }
  }

  lemma AdvanceKeepsWake(u: Setup, p: Player)
    requires Inv(u, p) && Enabled(u, p, Advance)
    ensures WakeInv(Advanced(u, p))
  {
  }

  lemma AdvanceKeeps(u: Setup, p: Player)
    requires Chronological(u.log) && Inv(u, p) && Enabled(u, p, Advance)
    ensures Inv(u, Advanced(u, p))
  {
    var any := AnyOn(p.ctl.states);
    var runs := p.i < |u.log| && IsOn(p.ctl.states, u.log[p.i].iface, false);
    var passes := p.i < |u.log| && Passes(p.ctl.messages, u.log[p.i].iface, u.log[p.i].name);
    var q := Moved(u, p, any, runs, passes);
    assert Advanced(u, p) == q;
    MovedKeepsCalibrated(u, p, any, runs, passes);
    MovedKeepsOut(u, p, any, runs, passes);
    MovedKeepsPace(u, p, any, runs, passes);
    AdvanceKeepsWake(u, p);
    MovedKeepsControl(u, p, any, runs, passes);
  }

  lemma MovedKeepsControl(u: Setup, p: Player, any: bool, runs: bool, passes: bool)
    ensures Moved(u, p, any, runs, passes).ctl == p.ctl
  {
  }

  /** A step of the clock or the user interface, or a wake-up, leaves the deliveries, the reference and the position alone. */
  predicate Elsewhere(p: Player, q: Player) {
    && q.out == p.out && q.t == p.t && q.i == p.i && q.now >= p.now
    && (q.pc == p.pc || (p.pc.Blocked? && q.pc.WaitTest?)
        || (p.pc.Asleep? && (q.pc.SleepTest? || q.pc.AskRunning? || q.pc.Emit? || q.pc.Over?)))
  }

  lemma ElsewhereStep(u: Setup, p: Player, a: Action)
    requires Enabled(u, p, a) && !a.Advance?
    ensures Elsewhere(p, Do(u, p, a))
    ensures Due(Do(u, p, a).pc) && !Due(p.pc) ==> a.Timeout?
    ensures Do(u, p, a).pc.Emit? && !p.pc.Emit? ==> !u.controlled
  {
  }

  lemma ElsewhereKeeps(u: Setup, p: Player, q: Player)
    requires Calibrated(u, p) && OutInv(u, p) && PaceInv(u, p) && Elsewhere(p, q)
    requires Due(q.pc) && !Due(p.pc) ==> q.now >= q.t.calTime + Offset(u.log, q.t.calIndex, q.i)
    ensures Calibrated(u, q) && OutInv(u, q) && PaceInv(u, q)
  {
    assert forall n | 0 <= n < |p.out| :: Referenced(p, p.out[n]) ==> Referenced(q, p.out[n]);
  }

  lemma ElsewhereKeepsWake(u: Setup, p: Player, a: Action)
    requires WakeInv(p) && Enabled(u, p, a) && !a.Advance? && (!u.controlled ==> !p.ctl.stopped && !p.ctl.pending)
    ensures WakeInv(Do(u, p, a)) && (!u.controlled ==> !Do(u, p, a).ctl.stopped && !Do(u, p, a).ctl.pending)
  {
  }

  lemma StepKeeps(u: Setup, p: Player, a: Action)
    requires Chronological(u.log) && Inv(u, p) && Enabled(u, p, a)
    ensures Inv(u, Do(u, p, a))
  {
    if a.Advance? {
      AdvanceKeeps(u, p);
    } else {
      ElsewhereStep(u, p, a);
      ElsewhereKeeps(u, p, Do(u, p, a));
      ElsewhereKeepsWake(u, p, a);
    }
  }

  lemma {:induction false} RunKeeps(u: Setup, p: Player, run: seq<Action>)
    requires Chronological(u.log) && Inv(u, p) && Exec(u, p, run).Some?
    ensures Inv(u, Exec(u, p, run).value)
  {
    if run != [] {
      RunKeeps(u, p, run[..|run| - 1]);
      StepKeeps(u, Exec(u, p, run[..|run| - 1]).value, run[|run| - 1]);
    }
  }

  // ----- What the controller answered -----

  /** An answer of the controller that the player acts on. */
  datatype Finding = AllPaused | Running | Passing

  /** The player is about to ask for message `k`, and the controller will give that answer. */
  predicate Finds(u: Setup, t: Player, k: nat, f: Finding) {
    t.i == k && k < |u.log| &&
    match f
    case AllPaused => t.pc.AskAny? && !AnyOn(t.ctl.states)
    case Running => t.pc.AskRunning? && IsOn(t.ctl.states, u.log[k].iface, false)
    case Passing => t.pc.AskEnabled? && Passes(t.ctl.messages, u.log[k].iface, u.log[k].name)
  }

  /** At some moment of the run the controller gave that answer for message `k`. */
  ghost predicate Found(u: Setup, p: Player, run: seq<Action>, k: nat, f: Finding) {
    exists n: nat :: n <= |run| && Exec(u, p, run[..n]).Some? && Finds(u, Exec(u, p, run[..n]).value, k, f)
  }

  lemma FoundStays(u: Setup, p: Player, run: seq<Action>, k: nat, f: Finding)
    requires run != [] && Found(u, p, run[..|run| - 1], k, f)
    ensures Found(u, p, run, k, f)
  {
    var shorter := run[..|run| - 1];
    var n: nat :| n <= |shorter| && Exec(u, p, shorter[..n]).Some? && Finds(u, Exec(u, p, shorter[..n]).value, k, f);
    assert shorter[..n] == run[..n];
  }

  lemma FoundNow(u: Setup, p: Player, run: seq<Action>, f: Finding)
    requires run != [] && Exec(u, p, run[..|run| - 1]).Some?
    requires var t := Exec(u, p, run[..|run| - 1]).value; Finds(u, t, t.i, f)
    ensures Found(u, p, run, Exec(u, p, run[..|run| - 1]).value.i, f)
  {
  }

  predicate Waiting(pc: Pc) {
    pc.WaitTest? || pc.Blocked? || pc.AskStopped?
  }

  /** What the player must have found to be where it is. */
  ghost predicate Justified(u: Setup, p: Player, run: seq<Action>, t: Player) {
    && (Waiting(t.pc) || (t.pc.Pace? && t.t.waited) ==> Found(u, p, run, t.i, AllPaused))
    && (t.t.started && t.t.calWaited ==> Found(u, p, run, t.t.calIndex, AllPaused))
    && (t.pc.AskEnabled? || (t.pc.Emit? && u.controlled) ==> Found(u, p, run, t.i, Running))
    && (t.pc.Emit? && u.controlled ==> Found(u, p, run, t.i, Passing))
  }

  /** What must have been found for a delivery. */
  ghost predicate Earned(u: Setup, p: Player, run: seq<Action>, d: Delivery) {
    && (d.calWaited ==> Found(u, p, run, d.calIndex, AllPaused))
    && (u.controlled ==> Found(u, p, run, d.index, Running) && Found(u, p, run, d.index, Passing))
  }

  lemma EarnedStays(u: Setup, p: Player, run: seq<Action>, d: Delivery)
    requires run != [] && Earned(u, p, run[..|run| - 1], d)
    ensures Earned(u, p, run, d)
  {
    if d.calWaited { FoundStays(u, p, run, d.calIndex, AllPaused); }
    if u.controlled {
      FoundStays(u, p, run, d.index, Running);
      FoundStays(u, p, run, d.index, Passing);
    }
  }

  /** How an answer of the controller lets the player pass. */
  lemma MovedByFinding(u: Setup, t: Player)
    requires TimingInv(u, t) && Enabled(u, t, Advance)
    ensures var q := Advanced(u, t);
            && (Waiting(q.pc) || (q.pc.Pace? && q.t.waited) ==>
                  q.i == t.i && (Waiting(t.pc) || (t.pc.Pace? && t.t.waited) || Finds(u, t, t.i, AllPaused)))
            && (q.t.started && q.t.calWaited ==>
                  || (t.t.started && t.t.calWaited && q.t.calIndex == t.t.calIndex)
                  || (t.pc.Pace? && t.t.waited && q.t.calIndex == t.i))
            && (q.pc.AskEnabled? ==> q.i == t.i && Finds(u, t, t.i, Running))
            && (q.pc.Emit? ==> q.i == t.i && Finds(u, t, t.i, Passing) && t.pc.AskEnabled?)
  {
    var any := AnyOn(t.ctl.states);
    var runs := t.i < |u.log| && IsOn(t.ctl.states, u.log[t.i].iface, false);
    var passes := t.i < |u.log| && Passes(t.ctl.messages, u.log[t.i].iface, u.log[t.i].name);
    MovedTiming(u, t, any, runs, passes);
    MovedPcs(u, t, any, runs, passes);
  }

  lemma MovedPcs(u: Setup, t: Player, any: bool, runs: bool, passes: bool)
    requires TimingInv(u, t) && !t.pc.Blocked? && !t.pc.Asleep? && !t.pc.Over?
    ensures var q := Moved(u, t, any, runs, passes);
            && (Waiting(q.pc) ==> q.i == t.i && (Waiting(t.pc) || (t.pc.AskAny? && !any && t.i < |u.log|)))
            && (q.pc.Pace? && q.t.waited ==> q.i == t.i && t.pc.AskStopped?)
            && (q.pc.AskEnabled? ==> q.i == t.i && t.pc.AskRunning? && runs && t.i < |u.log|)
            && (q.pc.Emit? ==> q.i == t.i && t.pc.AskEnabled? && passes && t.i < |u.log|)
  {
  }

  lemma FoundLater(u: Setup, p: Player, run: seq<Action>)
    requires run != [] && Exec(u, p, run[..|run| - 1]).Some?
    ensures forall k, f | Found(u, p, run[..|run| - 1], k, f) :: Found(u, p, run, k, f)
    ensures var t := Exec(u, p, run[..|run| - 1]).value;
            forall f | Finds(u, t, t.i, f) :: Found(u, p, run, t.i, f)
  {
    forall k, f | Found(u, p, run[..|run| - 1], k, f) ensures Found(u, p, run, k, f) {
      FoundStays(u, p, run, k, f);
    }
    var t := Exec(u, p, run[..|run| - 1]).value;
    forall f | Finds(u, t, t.i, f) ensures Found(u, p, run, t.i, f) {
      FoundNow(u, p, run, f);
    }
  }

  lemma JustifiedElsewhere(u: Setup, p: Player, run: seq<Action>, more: seq<Action>, t: Player, q: Player)
    requires Justified(u, p, run, t) && Elsewhere(t, q) && (q.pc.Emit? && !t.pc.Emit? ==> !u.controlled)
    requires forall k, f | Found(u, p, run, k, f) :: Found(u, p, more, k, f)
    ensures Justified(u, p, more, q)
  {
  }

  lemma JustifiedAdvance(u: Setup, p: Player, run: seq<Action>, more: seq<Action>, t: Player)
    requires Inv(u, t) && Justified(u, p, run, t) && Enabled(u, t, Advance)
    requires forall k, f | Found(u, p, run, k, f) :: Found(u, p, more, k, f)
    requires forall f | Finds(u, t, t.i, f) :: Found(u, p, more, t.i, f)
    ensures Justified(u, p, more, Advanced(u, t))
  {
    MovedByFinding(u, t);
  }

  lemma StepJustified(u: Setup, p: Player, run: seq<Action>)
    requires run != [] && Exec(u, p, run).Some?
    requires var t := Exec(u, p, run[..|run| - 1]).value; Inv(u, t) && Justified(u, p, run[..|run| - 1], t)
    ensures Justified(u, p, run, Exec(u, p, run).value)
  {
    var shorter, a := run[..|run| - 1], run[|run| - 1];
    var t := Exec(u, p, shorter).value;
    FoundLater(u, p, run);
    if a.Advance? {
      JustifiedAdvance(u, p, shorter, run, t);
    } else {
      ElsewhereStep(u, t, a);
      JustifiedElsewhere(u, p, shorter, run, t, Do(u, t, a));
    }
  }

  lemma StepEarned(u: Setup, p: Player, run: seq<Action>)
    requires run != [] && Exec(u, p, run).Some?
    requires var t := Exec(u, p, run[..|run| - 1]).value;
             && Inv(u, t) && Justified(u, p, run[..|run| - 1], t)
             && forall n | 0 <= n < |t.out| :: Earned(u, p, run[..|run| - 1], t.out[n])
    ensures var q := Exec(u, p, run).value;
            forall n | 0 <= n < |q.out| :: Earned(u, p, run, q.out[n])
  {
    var shorter, a := run[..|run| - 1], run[|run| - 1];
    var t, q := Exec(u, p, shorter).value, Exec(u, p, run).value;
    if a.Advance? {
      MovedOut(u, t, AnyOn(t.ctl.states), t.i < |u.log| && IsOn(t.ctl.states, u.log[t.i].iface, false),
               t.i < |u.log| && Passes(t.ctl.messages, u.log[t.i].iface, u.log[t.i].name));
    }
    forall n | 0 <= n < |q.out| ensures Earned(u, p, run, q.out[n]) {
      if n < |t.out| {
        assert q.out[n] == t.out[n];
      } else {
        assert q.out[n] == Emitted(u, t);
        assert Earned(u, p, shorter, Emitted(u, t));
      }
      EarnedStays(u, p, run, q.out[n]);
    }
  }

  lemma {:induction false} AllEarned(u: Setup, p: Player, run: seq<Action>)
    requires Chronological(u.log) && Inv(u, p) && p.pc.Next? && p.out == [] && !p.t.started && Exec(u, p, run).Some?
    ensures var t := Exec(u, p, run).value;
            Justified(u, p, run, t) && forall n | 0 <= n < |t.out| :: Earned(u, p, run, t.out[n])
  {
    if run != [] {
      AllEarned(u, p, run[..|run| - 1]);
      RunKeeps(u, p, run[..|run| - 1]);
      StepJustified(u, p, run);
      StepEarned(u, p, run);
    }
  }

  /**
    What the user does reaches the controller at once and the player not yet: a
    toggle switches that interface alone, a filter toggle that list alone, and a
    stop sets the flag. The first and the last are followed by a notification.
   */
  lemma UserStepsMean(u: Setup, p: Player, iface: string, idx: nat)
    requires u.controlled && !p.ctl.pending
    ensures var t := Do(u, p, Toggle(iface)).ctl;
            && Do(u, p, Toggle(iface)) == p.(ctl := t) && t.pending && t.stopped == p.ctl.stopped && t.messages == p.ctl.messages
            && (Find(p.ctl.states, iface) < |p.ctl.states| ==> IsOn(t.states, iface, false) == !IsOn(p.ctl.states, iface, false))
            && (forall other | other != iface :: IsOn(t.states, other, false) == IsOn(p.ctl.states, other, false))
    ensures Do(u, p, Stop) == p.(ctl := p.ctl.(stopped := true, pending := true))
    ensures var t := Do(u, p, ToggleMessage(iface, idx)).ctl;
            && Do(u, p, ToggleMessage(iface, idx)) == p.(ctl := t) && t == p.ctl.(messages := t.messages)
            && t.messages.Keys == p.ctl.messages.Keys
            && (forall other | other in t.messages && other != iface :: t.messages[other] == p.ctl.messages[other])
            && (iface in t.messages ==> t.messages[iface] == ToggledAt(p.ctl.messages[iface], idx))
  {
    forall other: string ensures other != iface ==>
      IsOn(Toggled(p.ctl.states, iface), other, false) == IsOn(p.ctl.states, other, false)
    {
      ToggleSwitchesOne(p.ctl.states, iface, other, false);
    }
    ToggleSwitchesOne(p.ctl.states, iface, iface, false);
  }

  // ----- Pacing -----

  /**
    In every interleaving each message is delivered no earlier than its offset
    from the calibrating message. Any two deliveries share one calibration,
    unless the player waited in between for an interface to run; then the
    message it waited with sets the new pace, due at once, no earlier than the
    end of the wait, and the later ones keep their offsets from it: no catch-up
    burst. The player waited with a message only if it found all interfaces
    paused, and the first calibration is by the first message to be played.
   */
  lemma PacedDelivery(u: Setup, states: seq<Item>, messages: map<string, seq<Item>>, now: nat, run: seq<Action>)
    requires Chronological(u.log) && Exec(u, Start(states, messages, now), run).Some?
    ensures var out := Exec(u, Start(states, messages, now), run).value.out;
            && (forall n | 0 <= n < |out| :: out[n].calIndex <= out[n].index < |u.log|)
            && (forall n | 0 <= n < |out| ::
                  out[n].time >= out[n].calTime + (u.log[out[n].index].logTime - u.log[out[n].calIndex].logTime))
            && (forall m, n | 0 <= m < n < |out| :: SameCalibration(out[m], out[n]) || Recalibrated(out[m], out[n]))
            && (forall n | 0 <= n < |out| ::
                  if out[n].calWaited then Found(u, Start(states, messages, now), run, out[n].calIndex, AllPaused)
                  else OthersUpTo(u, out[n].calIndex))
  {
    RunKeeps(u, Start(states, messages, now), run);
    AllEarned(u, Start(states, messages, now), run);
  }

  /** The player's next step, and the one after it where it has to ask the controller whether it was stopped. */
  function Settled(u: Setup, t: Player): Player {
    if u.controlled then Advanced(u, Advanced(u, t)) else Advanced(u, t)
  }

  lemma PaceSteps(u: Setup, t: Player)
    requires t.pc.Pace? && t.i < |u.log| && !t.t.started
    ensures Advanced(u, t) == t.(pc := if u.controlled then SleepTest else Asleep,
                                 t := t.t.(started := true, calIndex := t.i, calTime := t.now, calWaited := t.t.waited))
  {
  }

  lemma SleepSteps(u: Setup, t: Player)
    requires t.pc.SleepTest? && t.i < |u.log| && !t.ctl.stopped
    ensures Advanced(u, t) == t.(pc := Asleep, woken := false)
  {
  }

  /** Having set the pace, the player sleeps with its target time reached. */
  lemma CalibratedIsDue(u: Setup, t: Player)
    requires TimingInv(u, t)
    requires t.pc.Pace? && !t.t.started && !t.ctl.stopped
    ensures var q := Settled(u, t);
            && q.t.calIndex == q.i == t.i && q.t.calTime == q.now == t.now
            && q.pc.Asleep? && Enabled(u, q, Timeout)
            && Do(u, q, Timeout).pc == (if u.controlled then AskRunning else Emit)
  {
    PaceSteps(u, t);
    if u.controlled {
      SleepSteps(u, Advanced(u, t));
    }
  }

  /**
    The message that calibrates is due at once: having set the pace by it, the
    player goes to sleep with its target time reached, and can go on without a
    further tick of the clock, unless playback was stopped.
   */
  lemma {:induction false} CalibratingIsDue(u: Setup, states: seq<Item>, messages: map<string, seq<Item>>, now: nat, run: seq<Action>)
    requires Chronological(u.log) && Exec(u, Start(states, messages, now), run).Some?
    requires var t := Exec(u, Start(states, messages, now), run).value; t.pc.Pace? && !t.t.started && !t.ctl.stopped
    ensures var t := Exec(u, Start(states, messages, now), run).value;
            var q := Settled(u, t);
            && q.t.calIndex == q.i == t.i && q.t.calTime == q.now == t.now
            && q.pc.Asleep? && Enabled(u, q, Timeout)
            && Do(u, q, Timeout).pc == (if u.controlled then AskRunning else Emit)
  {
    RunKeeps(u, Start(states, messages, now), run);
    CalibratedIsDue(u, Exec(u, Start(states, messages, now), run).value);
  }

  /** A sleeping player goes on once its message is due, and not before. */
  lemma {:induction false} DueExactly(u: Setup, states: seq<Item>, messages: map<string, seq<Item>>, now: nat, run: seq<Action>)
    requires Chronological(u.log) && Exec(u, Start(states, messages, now), run).Some?
    requires Exec(u, Start(states, messages, now), run).value.pc.Asleep?
    ensures var p := Exec(u, Start(states, messages, now), run).value;
            && p.t.calIndex <= p.i < |u.log|
            && (Enabled(u, p, Timeout) <==> p.now >= p.t.calTime + (u.log[p.i].logTime - u.log[p.t.calIndex].logTime))
  {
    RunKeeps(u, Start(states, messages, now), run);
  }

  // ----- What is delivered -----

  /**
    Playback delivers an ordered selection of the readable messages, data
    messages to the frame sink and raw ones to the sender where there is one; with a controller, only messages whose interface was found running
    and whose filter was found on.
   */
  lemma DeliversSelection(u: Setup, states: seq<Item>, messages: map<string, seq<Item>>, now: nat, run: seq<Action>)
    requires Chronological(u.log) && Exec(u, Start(states, messages, now), run).Some?
    ensures var out := Exec(u, Start(states, messages, now), run).value.out;
            && (forall n | 0 <= n < |out| ::
                  && out[n].index < |u.log| && u.log[out[n].index].sound
                  && (out[n].sink.OnFrame? ==> u.log[out[n].index].kind.Data? && u.onFrame)
                  && (out[n].sink.OnSend? ==> u.log[out[n].index].kind.Raw? && u.onSend))
            && (forall m, n | 0 <= m < n < |out| :: out[m].index < out[n].index)
            && (forall n | 0 <= n < |out| && u.controlled ::
                  && Found(u, Start(states, messages, now), run, out[n].index, Running)
                  && Found(u, Start(states, messages, now), run, out[n].index, Passing))
  {
    RunKeeps(u, Start(states, messages, now), run);
    AllEarned(u, Start(states, messages, now), run);
  }

  predicate Delivered(p: Player, k: nat) {
    exists n :: 0 <= n < |p.out| && p.out[n].index == k
  }

  /** Whenever the player looked at message `k`, its interface ran and its filter was on. */
  ghost predicate OpenFor(u: Setup, p: Player, run: seq<Action>, k: nat)
    requires k < |u.log|
  {
    forall n: nat | n <= |run| && Exec(u, p, run[..n]).Some? ::
      var t := Exec(u, p, run[..n]).value;
      t.i == k && (t.pc.AskRunning? || t.pc.AskEnabled?) ==> Playing(u, t, k)
  }

  lemma OnlyAdvancePasses(u: Setup, t: Player, a: Action)
    requires Enabled(u, t, a)
    ensures a.Advance? || Do(u, t, a).i == t.i
    ensures a.Advance? ==> Do(u, t, a).i <= t.i + 1
  {
  }

  /** A step past message `k` delivers it, unless it is unreadable, has no sink, or was found switched off. */
  lemma PassingDelivers(u: Setup, t: Player, a: Action, k: nat)
    requires Inv(u, t) && Enabled(u, t, a) && k < |u.log| && Deliverable(u, k)
    requires t.i == k && k < Do(u, t, a).i
    requires t.pc.AskRunning? || t.pc.AskEnabled? ==> Playing(u, t, k)
    requires !u.controlled ==> !t.pc.AskRunning? && !t.pc.AskEnabled?
    ensures Delivered(Do(u, t, a), k)
  {
    OnlyAdvancePasses(u, t, a);
    var q := Advanced(u, t);
    assert t.pc.Emit?;
    assert q.out[|q.out| - 1].index == k;
  }

  lemma OutGrows(u: Setup, t: Player, a: Action, k: nat)
    requires Enabled(u, t, a) && Delivered(t, k)
    ensures Delivered(Do(u, t, a), k)
  {
    var n :| 0 <= n < |t.out| && t.out[n].index == k;
    assert Do(u, t, a).out[n] == t.out[n];
  }

  predicate Headless(pc: Pc) {
    pc.Next? || pc.Pace? || pc.Asleep? || pc.Emit? || pc.Over?
  }

  lemma HeadlessMoves(u: Setup, p: Player, any: bool, runs: bool, passes: bool)
    requires !u.controlled && Headless(p.pc)
    ensures Headless(Moved(u, p, any, runs, passes).pc)
  {
  }

  lemma HeadlessStep(u: Setup, p: Player, a: Action)
    requires !u.controlled && Headless(p.pc) && Enabled(u, p, a)
    ensures Headless(Do(u, p, a).pc)
  {
    if a.Advance? {
      HeadlessMoves(u, p, AnyOn(p.ctl.states),
                    p.i < |u.log| && IsOn(p.ctl.states, u.log[p.i].iface, false),
                    p.i < |u.log| && Passes(p.ctl.messages, u.log[p.i].iface, u.log[p.i].name));
    }
  }

  lemma {:induction false} HeadlessNeverAsks(u: Setup, p: Player, run: seq<Action>)
    requires !u.controlled && p.pc.Next? && Exec(u, p, run).Some?
    ensures Headless(Exec(u, p, run).value.pc)
  {
    if run != [] {
      HeadlessNeverAsks(u, p, run[..|run| - 1]);
      HeadlessStep(u, Exec(u, p, run[..|run| - 1]).value, run[|run| - 1]);
    }
  }

  lemma {:induction false} EveryOpenMessage(u: Setup, p: Player, run: seq<Action>, k: nat)
    requires Chronological(u.log) && Inv(u, p) && p.pc.Next? && Exec(u, p, run).Some?
    requires p.i <= k < |u.log| && Deliverable(u, k) && OpenFor(u, p, run, k)
    requires k < Exec(u, p, run).value.i
    ensures Delivered(Exec(u, p, run).value, k)
  {
    if run != [] {
      var shorter, a := run[..|run| - 1], run[|run| - 1];
      var t := Exec(u, p, shorter).value;
      RunKeeps(u, p, shorter);
      forall n: nat | n <= |shorter| ensures run[..n] == shorter[..n] {
      }
      if k < t.i {
        EveryOpenMessage(u, p, shorter, k);
        OutGrows(u, t, a, k);
      } else {
        OnlyAdvancePasses(u, t, a);
        assert t.i == k;
        if !u.controlled {
          HeadlessNeverAsks(u, p, shorter);
        }
        PassingDelivers(u, t, a, k);
      }
    }
  }

  /**
    Every readable message with a sink that the player has passed was delivered,
    if its interface ran and its filter was on whenever the player asked; in
    headless playback, always.
   */
  lemma OpenMessagesAreDelivered(u: Setup, states: seq<Item>, messages: map<string, seq<Item>>, now: nat,
                                 run: seq<Action>, k: nat)
    requires Chronological(u.log) && Exec(u, Start(states, messages, now), run).Some?
    requires k < |u.log| && k < Exec(u, Start(states, messages, now), run).value.i && u.log[k].sound
    requires (u.log[k].kind.Data? && u.onFrame) || (u.log[k].kind.Raw? && u.onSend)
    requires u.controlled ==> OpenFor(u, Start(states, messages, now), run, k)
    ensures var out := Exec(u, Start(states, messages, now), run).value.out;
            exists n :: 0 <= n < |out| && out[n].index == k && out[n].sink == if u.log[k].kind.Data? then OnFrame else OnSend
  {
    EveryOpenMessage(u, Start(states, messages, now), run, k);
    RunKeeps(u, Start(states, messages, now), run);
  }

  // ----- Stopping and waking -----

  /** How many deliveries a stopped player may still make. */
  function Room(p: Player): nat {
    |p.out| + if p.pc.AskRunning? || p.pc.AskEnabled? || p.pc.Emit? then 1 else 0
  }

  lemma RoomMoved(u: Setup, t: Player, any: bool, runs: bool, passes: bool)
    requires t.ctl.stopped && u.controlled
    ensures Moved(u, t, any, runs, passes).ctl.stopped && Room(Moved(u, t, any, runs, passes)) <= Room(t)
  {
  }

  lemma RoomStep(u: Setup, t: Player, a: Action)
    requires t.ctl.stopped && u.controlled && Enabled(u, t, a)
    ensures Do(u, t, a).ctl.stopped && Room(Do(u, t, a)) <= Room(t)
  {
    if a.Advance? {
      RoomMoved(u, t, AnyOn(t.ctl.states),
                t.i < |u.log| && IsOn(t.ctl.states, u.log[t.i].iface, false),
                t.i < |u.log| && Passes(t.ctl.messages, u.log[t.i].iface, u.log[t.i].name));
    }
  }

  lemma {:induction false} RoomShrinks(u: Setup, p: Player, more: seq<Action>)
    requires p.ctl.stopped && u.controlled && Exec(u, p, more).Some?
    ensures Exec(u, p, more).value.ctl.stopped && Room(Exec(u, p, more).value) <= Room(p)
  {
    if more != [] {
      RoomShrinks(u, p, more[..|more| - 1]);
      RoomStep(u, Exec(u, p, more[..|more| - 1]).value, more[|more| - 1]);
    }
  }

  lemma {:induction false} ExecSplit(u: Setup, p: Player, run: seq<Action>, more: seq<Action>)
    requires Exec(u, p, run + more).Some?
    ensures Exec(u, p, run).Some? && Exec(u, Exec(u, p, run).value, more) == Exec(u, p, run + more)
  {
    if more == [] {
      assert run + more == run;
    } else {
      assert (run + more)[..|run + more| - 1] == run + more[..|more| - 1];
      ExecSplit(u, p, run, more[..|more| - 1]);
    }
  }

  /** After stop() at most one more message is delivered, however the run goes on. */
  lemma AtMostOneAfterStop(u: Setup, p: Player, run: seq<Action>, more: seq<Action>)
    requires u.controlled && Exec(u, p, run + more).Some?
    requires Exec(u, p, run).Some? && Exec(u, p, run).value.ctl.stopped
    ensures |Exec(u, p, run + more).value.out| <= |Exec(u, p, run).value.out| + 1
  {
    ExecSplit(u, p, run, more);
    RoomShrinks(u, Exec(u, p, run).value, more);
  }

  /**
    The player never sleeps over a true wait predicate: if some interface runs
    or playback was stopped, a notification is on its way, or the user
    interface is about to send it.
   */
  lemma NeverSleepsOverTruth(u: Setup, states: seq<Item>, messages: map<string, seq<Item>>, now: nat, run: seq<Action>)
    requires Chronological(u.log) && Exec(u, Start(states, messages, now), run).Some?
    ensures var p := Exec(u, Start(states, messages, now), run).value;
            && (p.pc.Blocked? && (p.ctl.stopped || AnyOn(p.ctl.states)) ==> Enabled(u, p, Wake) || Enabled(u, p, NotifyAll))
            && (p.pc.Asleep? && p.ctl.stopped ==> Enabled(u, p, Wake) || Enabled(u, p, NotifyAll))
  {
    RunKeeps(u, Start(states, messages, now), run);
    HeadlessInRuns(u, Start(states, messages, now), run);
  }

  lemma {:induction false} HeadlessInRuns(u: Setup, p: Player, run: seq<Action>)
    requires !u.controlled ==> p.pc.Next?
    requires Exec(u, p, run).Some?
    ensures !u.controlled ==> !Exec(u, p, run).value.pc.Blocked?
  {
    if !u.controlled {
      HeadlessNeverAsks(u, p, run);
    }
  }

  // ----- The end after a stop -----

  /** How far a stopped player is from its end. */
  function ToEnd(u: Setup, p: Player): nat {
    20 * (if p.i < |u.log| then |u.log| - p.i else 0) +
    match p.pc
    case Blocked => if p.woken then 12 else 13
    case Next => 10
    case AskAny => 9
    case WaitTest => 8
    case AskStopped => 7
    case Asleep => if p.woken then 6 else 7
    case Pace => 5
    case SleepTest => 4
    case AskRunning => 3
    case AskEnabled => 2
    case Emit => 1
    case Over => 0
  }

  /** What brings a stopped player on: its own step, waking up, or the notification that is still to come. */
  function Onward(p: Player): Action {
    if !p.pc.Blocked? && !p.pc.Asleep? then Advance else if p.woken then Wake else NotifyAll
  }

  lemma MovedNearer(u: Setup, p: Player, any: bool, runs: bool, passes: bool)
    requires TimingInv(u, p) && p.ctl.stopped && u.controlled && !p.pc.Blocked? && !p.pc.Asleep? && !p.pc.Over?
    ensures ToEnd(u, Moved(u, p, any, runs, passes)) < ToEnd(u, p)
  {
  }

  lemma OnwardNearer(u: Setup, p: Player)
    requires Inv(u, p) && u.controlled && p.ctl.stopped && !p.pc.Over?
    ensures Enabled(u, p, Onward(p)) && ToEnd(u, Do(u, p, Onward(p))) < ToEnd(u, p) && Do(u, p, Onward(p)).ctl.stopped
    ensures Do(u, p, Onward(p)).now == p.now
  {
    if Onward(p).Advance? {
      MovedNearer(u, p, AnyOn(p.ctl.states), p.i < |u.log| && IsOn(p.ctl.states, u.log[p.i].iface, false),
                  p.i < |u.log| && Passes(p.ctl.messages, u.log[p.i].iface, u.log[p.i].name));
      MovedKeepsControl(u, p, AnyOn(p.ctl.states), p.i < |u.log| && IsOn(p.ctl.states, u.log[p.i].iface, false),
                        p.i < |u.log| && Passes(p.ctl.messages, u.log[p.i].iface, u.log[p.i].name));
    }
  }

  lemma {:induction false} RunsToEnd(u: Setup, start: Player, run: seq<Action>, p: Player) returns (all: seq<Action>, q: Player)
    requires Chronological(u.log) && Exec(u, start, run) == Some(p) && Inv(u, p) && u.controlled && p.ctl.stopped
    ensures run <= all && Exec(u, start, all) == Some(q) && q.pc.Over? && q.now == p.now
    decreases ToEnd(u, p)
  {
    if p.pc.Over? {
      all, q := run, p;
    } else {
      OnwardNearer(u, p);
      StepKeeps(u, p, Onward(p));
      var longer := run + [Onward(p)];
      assert longer[..|longer| - 1] == run;
      all, q := RunsToEnd(u, start, longer, Do(u, p, Onward(p)));
    }
  }

  /** After stop() the player can always end without the clock moving: nothing keeps it waiting. */
  lemma {:induction false} StopEndsPlayback(u: Setup, states: seq<Item>, messages: map<string, seq<Item>>, now: nat, run: seq<Action>)
      returns (all: seq<Action>)
    requires Chronological(u.log) && u.controlled && Exec(u, Start(states, messages, now), run).Some?
    requires Exec(u, Start(states, messages, now), run).value.ctl.stopped
    ensures run <= all && Exec(u, Start(states, messages, now), all).Some?
    ensures Exec(u, Start(states, messages, now), all).value.pc.Over?
    ensures Exec(u, Start(states, messages, now), all).value.now == Exec(u, Start(states, messages, now), run).value.now
  {
    RunKeeps(u, Start(states, messages, now), run);
    var q;
    all, q := RunsToEnd(u, Start(states, messages, now), run, Exec(u, Start(states, messages, now), run).value);
  }

  // ----- Playing to the end -----

  predicate EndInv(u: Setup, p: Player) {
    p.pc.Over? ==> p.i >= |u.log| || p.ctl.stopped
  }

  lemma {:induction false} EndInRuns(u: Setup, start: Player, run: seq<Action>)
    requires Chronological(u.log) && Inv(u, start) && !start.pc.Over? && Exec(u, start, run).Some?
    ensures EndInv(u, Exec(u, start, run).value)
  {
    if run != [] {
      EndInRuns(u, start, run[..|run| - 1]);
      EndStep(u, Exec(u, start, run[..|run| - 1]).value, run[|run| - 1]);
    }
  }

  lemma EndStep(u: Setup, p: Player, a: Action)
    requires EndInv(u, p) && Enabled(u, p, a)
    ensures EndInv(u, Do(u, p, a))
  {
  }

  /** Playback ends only at the end of the recording or after a stop. */
  lemma {:induction false} EndsOnlyAtEnd(u: Setup, states: seq<Item>, messages: map<string, seq<Item>>, now: nat, run: seq<Action>)
    requires Chronological(u.log) && Exec(u, Start(states, messages, now), run).Some?
    ensures var p := Exec(u, Start(states, messages, now), run).value;
            p.pc.Over? ==> p.i >= |u.log| || p.ctl.stopped
  {
    EndInRuns(u, Start(states, messages, now), run);
  }

  predicate IsDue(u: Setup, p: Player) {
    p.i < |u.log| && p.t.calIndex < |u.log| && p.now >= p.t.calTime + Offset(u.log, p.t.calIndex, p.i)
  }

  /** Some interface runs, or there is nothing to pause it, and nobody has stopped it. */
  predicate Runs(u: Setup, p: Player) {
    !p.ctl.stopped && (u.controlled ==> AnyOn(p.ctl.states))
  }

  /** How far a player that runs is from its end. */
  function ToGo(u: Setup, p: Player): nat {
    20 * (if p.i < |u.log| then |u.log| - p.i else 0) +
    match p.pc
    case Blocked => if p.woken then 12 else 13
    case Next => 11
    case AskAny => 10
    case WaitTest => 9
    case AskStopped => 8
    case Pace => 7
    case SleepTest => 6
    case Asleep => if IsDue(u, p) then 4 else 5
    case AskRunning => 3
    case AskEnabled => 2
    case Emit => 1
    case Over => 0
  }

  function Proceed(u: Setup, p: Player): Action {
    if p.pc.Blocked? then (if p.woken then Wake else NotifyAll)
    else if !p.pc.Asleep? then Advance
    else if IsDue(u, p) then Timeout
    else if p.i < |u.log| && p.t.calIndex < |u.log| && p.t.calTime + Offset(u.log, p.t.calIndex, p.i) > p.now
    then Tick(p.t.calTime + Offset(u.log, p.t.calIndex, p.i) - p.now)
    else Tick(0)
  }

  lemma MovedCloser(u: Setup, p: Player, runs: bool, passes: bool)
    requires TimingInv(u, p) && !p.ctl.stopped && !p.pc.Blocked? && !p.pc.Asleep? && !p.pc.Over?
    ensures ToGo(u, Moved(u, p, true, runs, passes)) < ToGo(u, p)
  {
  }

  lemma MovedCloserHeadless(u: Setup, p: Player, any: bool, runs: bool, passes: bool)
    requires TimingInv(u, p) && Headless(p.pc) && !p.ctl.stopped && !p.pc.Asleep? && !p.pc.Over?
    ensures ToGo(u, Moved(u, p, any, runs, passes)) < ToGo(u, p)
  {
  }

  lemma ProceedCloser(u: Setup, p: Player)
    requires Inv(u, p) && Runs(u, p) && !p.pc.Over? && (!u.controlled ==> Headless(p.pc))
    ensures Enabled(u, p, Proceed(u, p)) && ToGo(u, Do(u, p, Proceed(u, p))) < ToGo(u, p)
  {
    if Proceed(u, p).Advance? {
      var runs := p.i < |u.log| && IsOn(p.ctl.states, u.log[p.i].iface, false);
      var passes := p.i < |u.log| && Passes(p.ctl.messages, u.log[p.i].iface, u.log[p.i].name);
      if u.controlled {
        MovedCloser(u, p, runs, passes);
      } else {
        MovedCloserHeadless(u, p, AnyOn(p.ctl.states), runs, passes);
      }
    }
  }

  lemma ProceedRuns(u: Setup, p: Player)
    requires Runs(u, p) && Enabled(u, p, Proceed(u, p))
    ensures Runs(u, Do(u, p, Proceed(u, p)))
  {
    if Proceed(u, p).Advance? {
      MovedKeepsControl(u, p, AnyOn(p.ctl.states), p.i < |u.log| && IsOn(p.ctl.states, u.log[p.i].iface, false),
                        p.i < |u.log| && Passes(p.ctl.messages, u.log[p.i].iface, u.log[p.i].name));
    }
  }

  lemma {:induction false} RunsThrough(u: Setup, start: Player, run: seq<Action>, p: Player) returns (all: seq<Action>, q: Player)
    requires Chronological(u.log) && Exec(u, start, run) == Some(p) && Inv(u, p) && Runs(u, p) && (!u.controlled ==> Headless(p.pc))
    ensures run <= all && Exec(u, start, all) == Some(q) && q.pc.Over? && Runs(u, q)
    decreases ToGo(u, p)
  {
    if p.pc.Over? {
      all, q := run, p;
    } else {
      var a := Proceed(u, p);
      ProceedCloser(u, p);
      ProceedRuns(u, p);
      StepKeeps(u, p, a);
      if !u.controlled { HeadlessStep(u, p, a); }
      var longer := run + [a];
      assert longer[..|longer| - 1] == run;
      all, q := RunsThrough(u, start, longer, Do(u, p, a));
    }
  }

  /**
    Progress: while some interface runs, or without a controller, and nobody
    stops it, the player only needs time to pass to get through the recording.
   */
  lemma {:induction false} PlaysToTheEnd(u: Setup, states: seq<Item>, messages: map<string, seq<Item>>, now: nat, run: seq<Action>)
      returns (all: seq<Action>)
    requires Chronological(u.log) && Exec(u, Start(states, messages, now), run).Some?
    requires Runs(u, Exec(u, Start(states, messages, now), run).value)
    ensures run <= all && Exec(u, Start(states, messages, now), all).Some?
    ensures var q := Exec(u, Start(states, messages, now), all).value; q.pc.Over? && q.i >= |u.log|
  {
    var start := Start(states, messages, now);
    RunKeeps(u, start, run);
    if !u.controlled { HeadlessNeverAsks(u, start, run); }
    var q;
    all, q := RunsThrough(u, start, run, Exec(u, start, run).value);
    EndInRuns(u, start, all);
  }
}
