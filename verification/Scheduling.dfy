/**
  Actions and their handler as values, one handler of the event loop per step.
  `atomic` says whether cancelling a wait also takes back a completion that is
  already queued; the event loop of the program does not. A destroyed action
  is kept in `gone`, because completions of it may still be queued.
 */
module Scheduling {
  import opened Basics

  datatype Kind =
    | Single
    | Periodic(period: nat)
    | Sin(interval: nat, amplitude: real, sinPeriod: int, offset: real)

  /** Waits registered with the timer, by expiry time, and completions queued for the loop. */
  datatype Timer = Timer(waits: seq<nat>, ready: nat)

  /** The sine clock; `live` only records the unpaused time since construction. */
  datatype Phase = Phase(accumulated: nat, resumeTime: nat, live: nat)

  datatype Target = Target(iface: string, msgId: nat, msgName: string)

  /** `uid` stands for the object's identity; `late` records a pause that came after a completion was queued. */
  datatype Action = Action(uid: nat, kind: Kind, target: Target, payload: seq<bv8>, paused: bool, late: bool,
                           sent: Option<nat>, timer: Timer, phase: Phase)

  datatype ActionInfo = ActionInfo(idx: nat, target: Target, typeName: string, isPeriodic: bool, paused: bool,
                                   sinAmplitude: real, sinPeriod: int, sinOffset: real, period: nat, lastSent: Option<nat>)

  datatype Command =
    | Add(action: Action, startPaused: bool)
    | Remove(idx: nat)
    | TogglePause(idx: nat)
    | UpdateSinParam(idx: nat, param: int, value: real)
    | UpdatePayload(idx: nat, payload: seq<bv8>)

  // ----- One action -----

  function PeriodOf(k: Kind): nat {
    match k
    case Single => 0
    case Periodic(p) => p
    case Sin(i, _, _, _) => i
  }

  function Cancelled(t: Timer, atomic: bool): Timer {
    Timer([], if atomic then 0 else t.ready)
  }

  /** Setting a new expiry cancels the old wait before the new one is registered. */
  function Scheduled(a: Action, now: nat, atomic: bool): Action {
    a.(timer := Timer([now + PeriodOf(a.kind)], Cancelled(a.timer, atomic).ready))
  }

  function Since(now: nat, t: nat): nat {
    if now >= t then now - t else 0
  }

  function Elapsed(a: Action, now: nat): nat {
    a.phase.accumulated + Since(now, a.phase.resumeTime)
  }

  function Paused(a: Action, now: nat, atomic: bool): Action {
    var t := Cancelled(a.timer, atomic);
    a.(paused := true, late := t.ready > 0, timer := t,
       phase := if a.kind.Sin? then a.phase.(accumulated := Elapsed(a, now)) else a.phase)
  }

  function Resumed(a: Action, now: nat, atomic: bool): Action {
    Scheduled(a.(paused := false, late := false,
                 phase := if a.kind.Sin? then a.phase.(resumeTime := now) else a.phase), now, atomic)
  }

  function Toggled(a: Action, now: nat, atomic: bool): Action {
    if a.paused then Resumed(a, now, atomic) else Paused(a, now, atomic)
  }

  function Started(a: Action, startPaused: bool, now: nat, atomic: bool): Action {
    var s := Scheduled(a, now, atomic);
    if startPaused then Paused(s, now, atomic) else s
  }

  /** Fires a repeating action and schedules it again; `payload` is the sine encoder's output. */
  function Fired(a: Action, payload: seq<bv8>, now: nat, atomic: bool): Action
    requires a.timer.ready > 0
  {
    var b := a.(timer := a.timer.(ready := a.timer.ready - 1), sent := Some(now),
                payload := if a.kind.Sin? then payload else a.payload);
    if a.kind.Single? then b else Scheduled(b, now, atomic)
  }

  function WithParam(a: Action, param: int, value: real): Action {
    if !a.kind.Sin? then a
    else if param == 0 then a.(kind := a.kind.(amplitude := value))
    else if param == 1 then a.(kind := a.kind.(sinPeriod := Truncate(value)))
    else if param == 2 then a.(kind := a.kind.(offset := value))
    else a
  }

  // ----- The list -----

  function TypeName(k: Kind): string {
    match k
    case Single => "Single"
    case Periodic(_) => "Periodic"
    case Sin(_, _, _, _) => "Sin"
  }

  function Info(a: Action, idx: nat): ActionInfo {
    ActionInfo(idx, a.target, TypeName(a.kind), !a.kind.Single?, a.paused,
               if a.kind.Sin? then a.kind.amplitude else 0.0, if a.kind.Sin? then a.kind.sinPeriod else 0,
               if a.kind.Sin? then a.kind.offset else 0.0, PeriodOf(a.kind), a.sent)
  }

  /** The projection of the action list that the user interface sees. */
  function Projection(actions: seq<Action>): (r: seq<ActionInfo>)
    ensures |r| == |actions|
  {
    seq(|actions|, i requires 0 <= i < |actions| => Info(actions[i], i))
  }

  function RemoveAt(actions: seq<Action>, i: nat): (r: seq<Action>)
    requires i < |actions|
    ensures |r| == |actions| - 1
  {
    actions[..i] + actions[i + 1..]
  }

  /** The actions in the list, and those that were destroyed. */
  datatype Lists = Lists(actions: seq<Action>, gone: seq<Action>)

  /** Erasing an action destroys it; that cancels its timer. */
  function Dropped(l: Lists, i: nat, atomic: bool): Lists
    requires i < |l.actions|
  {
    Lists(RemoveAt(l.actions, i), l.gone + [l.actions[i].(timer := Cancelled(l.actions[i].timer, atomic))])
  }

  function Updated(l: Lists, i: nat, a: Action): Lists
    requires i < |l.actions|
  {
    l.(actions := l.actions[i := a])
  }

  /** The lists after a posted command has run. */
  function Ran(l: Lists, c: Command, now: nat, atomic: bool): Lists {
    match c
    case Add(a, startPaused) => l.(actions := l.actions + [Started(a, startPaused, now, atomic)])
    case Remove(i) => if i < |l.actions| then Dropped(l, i, atomic) else l
    case TogglePause(i) => if i < |l.actions| then Updated(l, i, Toggled(l.actions[i], now, atomic)) else l
    case UpdateSinParam(i, param, value) =>
      if i < |l.actions| then Updated(l, i, WithParam(l.actions[i], param, value)) else l
    case UpdatePayload(i, payload) => if i < |l.actions| then Updated(l, i, l.actions[i].(payload := payload)) else l
  }

  /** The lists after the timer completion of action `i` has run. */
  function Completed(l: Lists, i: nat, payload: seq<bv8>, now: nat, atomic: bool): Lists
    requires i < |l.actions| && l.actions[i].timer.ready > 0
  {
    var fired := Updated(l, i, Fired(l.actions[i], payload, now, atomic));
    if l.actions[i].kind.Single? then Dropped(fired, i, atomic) else fired
  }

  /** The lists after a completion of a destroyed action has run; what else it does to the dead object is undefined. */
  function Strayed(l: Lists, j: nat): Lists
    requires j < |l.gone| && l.gone[j].timer.ready > 0
  {
    var g := l.gone[j];
    l.(gone := l.gone[j := g.(timer := g.timer.(ready := g.timer.ready - 1))])
  }
}
