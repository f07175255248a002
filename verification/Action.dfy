/** An action as an object: its timer, its pause flag and its sine clock, changed by calls and completions. */
module ActionObjects {
  import opened Basics
  import S = Scheduling
  import R = ActionRuns

  class Action {
    const uid: nat
    const target: S.Target
    var kind: S.Kind
    var payload: seq<bv8>
    var paused: bool
    var lastSent: Option<nat>
    var timer: S.Timer
    var accumulated: nat
    var resumeTime: nat
    /** History only: a pause that came after a completion was queued, and the unpaused lifetime. */
    ghost var late: bool
    ghost var live: nat

    ghost function Abstract(): S.Action
      reads this
    {
      S.Action(uid, kind, target, payload, paused, late, lastSent, timer, S.Phase(accumulated, resumeTime, live))
    }

    constructor (id: nat, k: S.Kind, t: S.Target, data: seq<bv8>, now: nat)
      ensures Abstract() == R.Constructed(id, k, t, data, now)
    {
      uid, kind, target, payload := id, k, t, data;
      paused, lastSent, timer := false, None, S.Timer([], 0);
      accumulated, resumeTime := 0, now;
      late, live := false, 0;
    }

    method Cancel(atomic: bool)
      modifies this`timer
      ensures timer == S.Cancelled(old(timer), atomic)
    {
      timer := timer.(waits := []);
      if atomic {
        timer := timer.(ready := 0);
      }
    }

    /** A new expiry first cancels the wait that was armed. */
    method Schedule(now: nat, atomic: bool)
      modifies this`timer
      ensures Abstract() == S.Scheduled(old(Abstract()), now, atomic)
    {
      var delay := 0;
      if kind.Periodic? {
        delay := kind.period;
      } else if kind.Sin? {
        delay := kind.interval;
      }
      Cancel(atomic);
      timer := timer.(waits := timer.waits + [now + delay]);
    }

    method Start(now: nat, atomic: bool)
      modifies this`timer
      ensures Abstract() == S.Started(old(Abstract()), false, now, atomic)
    {
      Schedule(now, atomic);
    }

    method Pause(now: nat, atomic: bool)
      modifies this
      ensures Abstract() == S.Paused(old(Abstract()), now, atomic)
    {
      if kind.Sin? {
        accumulated := accumulated + S.Since(now, resumeTime);
      }
      paused := true;
      Cancel(atomic);
      late := timer.ready > 0;
    }

    method Resume(now: nat, atomic: bool)
      modifies this
      ensures Abstract() == S.Resumed(old(Abstract()), now, atomic)
    {
      if kind.Sin? {
        resumeTime := now;
      }
      paused, late := false, false;
      Schedule(now, atomic);
    }

    method ElapsedTime(now: nat) returns (t: nat)
      ensures t == S.Elapsed(Abstract(), now)
    {
      t := accumulated + S.Since(now, resumeTime);
    }

    /**
      A completion runs: encode at the clock's reading if sine, send, and schedule
      again unless single. `encode` is the encoder with the sine applied.
     */
    method OnExpiry(encode: nat -> seq<bv8>, now: nat, atomic: bool) returns (sent: seq<bv8>, done: bool)
      requires timer.ready > 0
      modifies this
      ensures Abstract() == S.Fired(old(Abstract()), encode(S.Elapsed(old(Abstract()), now)), now, atomic)
      ensures sent == (if old(kind).Sin? then encode(S.Elapsed(old(Abstract()), now)) else old(payload))
      ensures done == old(kind).Single?
    {
      timer := timer.(ready := timer.ready - 1);
      if kind.Sin? {
        var t := ElapsedTime(now);
        payload := encode(t);
      }
      sent := payload;
      lastSent := Some(now);
      done := kind.Single?;
      if !done {
        Schedule(now, atomic);
      }
    }
  }
}
