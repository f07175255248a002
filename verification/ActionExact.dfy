/** Exactly when sends of one action crowd, and exactly how often a single action fires. */
module ActionExact {
  import opened Basics
  import opened Scheduling
  import opened ActionRuns
  import opened ActionLog
  import opened ActionRemoval
  import P = ActionProperties

  // ----- Firing what is queued -----

  /** The send that running the oldest handler adds. */
  function NewSend(s: Loop, encoded: seq<bv8>): Send
    requires Fires(s, RunNext(encoded))
  {
    var uid := s.queue[0].uid;
    if Pending(s.held.actions, uid) then SendOf(s.held.actions[Position(s.held.actions, uid)], s.now, false)
    else SendOf(s.held.gone[Position(s.held.gone, uid)], s.now, true)
  }

  /** Running a completion adds that send, and takes one completion of the action off the queue. */
  lemma FiringAdds(s: Loop, encoded: seq<bv8>, atomic: bool)
    requires Inv(s, atomic) && Fires(s, RunNext(encoded))
    ensures var t, d := Do(s, RunNext(encoded), atomic), NewSend(s, encoded);
            && t.sends == s.sends + [d] && t.now == s.now == d.time && d.uid == s.queue[0].uid
            && d.left == Count(s.queue, d.uid) - 1
  {
    assert Count(s.queue, s.queue[0].uid) == Ready(s.held, s.queue[0].uid);
    if !Pending(s.held.actions, s.queue[0].uid) {
      PendingGone(s, s.queue[0].uid);
    }
  }

  lemma PendingGone(s: Loop, uid: nat)
    requires IdentityInv(s) && Pending(s.held.gone, uid)
    ensures Position(s.held.actions, uid) == |s.held.actions|
  {
    Membership(s.held.gone, uid);
    Membership(s.held.actions, uid);
  }

  /** Right after a send, exactly `left` completions of the action are queued; with atomic cancelling that is none. */
  lemma LeftIsQueued(s: Loop, encoded: seq<bv8>, atomic: bool)
    requires Inv(s, atomic) && Fires(s, RunNext(encoded))
    ensures var t, d := Do(s, RunNext(encoded), atomic), NewSend(s, encoded);
            Count(t.queue, d.uid) == d.left && (atomic ==> d.left == 0)
  {
    var t, d := Do(s, RunNext(encoded), atomic), NewSend(s, encoded);
    FiringAdds(s, encoded, atomic);
    StepKeeps(s, RunNext(encoded), atomic);
    assert t.sends[|s.sends|] == d && Shown(d, atomic);
    if atomic && Pending(s.held.actions, d.uid) {
      CountWithout(s.queue[1..], d.uid, d.uid);
    }
  }

  lemma {:induction false} SendsGrow(s: Loop, more: seq<Step>, atomic: bool)
    requires Exec(s, more, atomic).Some?
    ensures s.sends <= Exec(s, more, atomic).value.sends
  {
    if more != [] {
      SendsGrow(s, more[..|more| - 1], atomic);
      StepGrows(Exec(s, more[..|more| - 1], atomic).value, more[|more| - 1], atomic);
    }
  }

  lemma StepGrows(s: Loop, x: Step, atomic: bool)
    requires Enabled(s, x)
    ensures s.sends <= Do(s, x, atomic).sends
  {
  }

  /** A queued completion whose action accounts for it fires when its turn comes. */
  lemma HeadFires(s: Loop, uid: nat)
    requires CountInv(s) && s.queue != [] && s.queue[0] == Completion(uid)
    ensures Fires(s, RunNext([]))
  {
    assert Count(s.queue, uid) == Ready(s.held, uid);
  }

  /** Without atomic cancelling, running the queue takes only the oldest handler off it. */
  lemma OnlyHeadLeaves(s: Loop, atomic: bool)
    requires !atomic && s.queue != []
    ensures Do(s, RunNext([]), atomic).queue == s.queue[1..] && Do(s, RunNext([]), atomic).now == s.now
  {
  }

  ghost predicate SentSince(s: Loop, t: Loop, uid: nat, time: nat) {
    exists n :: |s.sends| <= n < |t.sends| && t.sends[n].uid == uid && t.sends[n].time == time
  }

  /** Without atomic cancelling, what is queued can fire without any time passing. */
  lemma {:induction false} QueuedFiresAtOnce(s: Loop, atomic: bool, uid: nat) returns (more: seq<Step>)
    requires !atomic && Inv(s, atomic) && Count(s.queue, uid) > 0
    ensures Exec(s, more, atomic).Some? && SentSince(s, Exec(s, more, atomic).value, uid, s.now)
    decreases |s.queue|
  {
    var t := Do(s, RunNext([]), atomic);
    OnlyHeadLeaves(s, atomic);
    if s.queue[0] == Completion(uid) {
      HeadFires(s, uid);
      FiringAdds(s, [], atomic);
      more := [RunNext([])];
      Prepend(s, RunNext([]), [], atomic);
      assert Exec(s, more, atomic) == Some(t) by { assert more == [RunNext([])] + []; }
      assert t.sends[|s.sends|].uid == uid;
    } else {
      StepKeeps(s, RunNext([]), atomic);
      StepGrows(s, RunNext([]), atomic);
      var rest := QueuedFiresAtOnce(t, atomic, uid);
      Prepend(s, RunNext([]), rest, atomic);
      more := [RunNext([])] + rest;
      assert Exec(s, more, atomic) == Exec(t, rest, atomic);
    }
  }

  // ----- Spacing -----

  /** Every later send of the action is at least `period` after `d`. */
  predicate SpacedSince(t: Loop, u: Loop, d: Send, period: nat) {
    forall n | |t.sends| <= n < |u.sends| && u.sends[n].uid == d.uid :: u.sends[n].time >= d.time + period
  }

  /** However the run goes on from `t`. */
  ghost predicate EverSpaced(t: Loop, d: Send, period: nat, atomic: bool) {
    forall more: seq<Step> | Exec(t, more, atomic).Some? :: SpacedSince(t, Exec(t, more, atomic).value, d, period)
  }

  lemma LastLeavesSpace(t: Loop, d: Send, more: seq<Step>, atomic: bool)
    requires Inv(t, atomic) && t.sends != [] && t.sends[|t.sends| - 1] == d && d.left == 0 && Exec(t, more, atomic).Some?
    ensures SpacedSince(t, Exec(t, more, atomic).value, d, PeriodOf(d.kind))
  {
    var u := Exec(t, more, atomic).value;
    RunKeeps(t, more, atomic);
    SendsGrow(t, more, atomic);
    forall n | |t.sends| <= n < |u.sends| && u.sends[n].uid == d.uid ensures u.sends[n].time >= d.time + PeriodOf(d.kind) {
      assert u.sends[|t.sends| - 1] == d;
      assert Spaced(u.sends[|t.sends| - 1], u.sends[n]);
    }
  }

  lemma SpacingFrom(s: Loop, encoded: seq<bv8>, period: nat, atomic: bool)
    requires Inv(s, atomic) && Fires(s, RunNext(encoded)) && period > 0 && PeriodOf(NewSend(s, encoded).kind) == period
    ensures EverSpaced(Do(s, RunNext(encoded), atomic), NewSend(s, encoded), period, atomic) <==> NewSend(s, encoded).left == 0
  {
    var t, d := Do(s, RunNext(encoded), atomic), NewSend(s, encoded);
    FiringAdds(s, encoded, atomic);
    LeftIsQueued(s, encoded, atomic);
    StepKeeps(s, RunNext(encoded), atomic);
    if d.left == 0 {
      forall more: seq<Step> | Exec(t, more, atomic).Some? ensures SpacedSince(t, Exec(t, more, atomic).value, d, period) {
        LastLeavesSpace(t, d, more, atomic);
      }
    } else {
      var more := QueuedFiresAtOnce(t, atomic, d.uid);
      assert !SpacedSince(t, Exec(t, more, atomic).value, d, period);
    }
  }

  /**
    Whenever a periodic or sine action with a positive period or interval
    fires, every later send of it in every continuation is at least that much
    later, if and only if the completion that is run was the only one of the
    action in the queue.
   */
  lemma {:induction false} SpacingExact(run: seq<Step>, encoded: seq<bv8>, period: nat, atomic: bool)
    requires Exec(Initial, run, atomic).Some? && Fires(Exec(Initial, run, atomic).value, RunNext(encoded)) && period > 0
    requires var kind := NewSend(Exec(Initial, run, atomic).value, encoded).kind;
             kind == Periodic(period) || (kind.Sin? && kind.interval == period)
    ensures var s := Exec(Initial, run, atomic).value;
            EverSpaced(Do(s, RunNext(encoded), atomic), NewSend(s, encoded), period, atomic)
            <==> Count(s.queue, s.queue[0].uid) == 1
  {
    RunKeeps(Initial, run, atomic);
    FiringAdds(Exec(Initial, run, atomic).value, encoded, atomic);
    SpacingFrom(Exec(Initial, run, atomic).value, encoded, period, atomic);
  }

  /** Without atomic cancelling, an action whose wait is over can send at once, whatever is queued before it. */
  lemma {:induction false} DueActionSendsAtOnce(run: seq<Step>, atomic: bool, i: nat) returns (more: seq<Step>)
    requires !atomic && Exec(Initial, run, atomic).Some? && i < |Exec(Initial, run, atomic).value.held.actions|
    requires var s := Exec(Initial, run, atomic).value;
             s.held.actions[i].timer.waits != [] && s.held.actions[i].timer.waits[0] <= s.now
    ensures var s := Exec(Initial, run, atomic).value;
            Exec(s, more, atomic).Some? && SentSince(s, Exec(s, more, atomic).value, s.held.actions[i].uid, s.now)
  {
    RunKeeps(Initial, run, atomic);
    more := DueSends(Exec(Initial, run, atomic).value, atomic, i);
  }

  lemma DueSends(s: Loop, atomic: bool, i: nat) returns (more: seq<Step>)
    requires !atomic && Inv(s, atomic) && i < |s.held.actions|
    requires s.held.actions[i].timer.waits != [] && s.held.actions[i].timer.waits[0] <= s.now
    ensures Exec(s, more, atomic).Some? && SentSince(s, Exec(s, more, atomic).value, s.held.actions[i].uid, s.now)
  {
    var uid, t := s.held.actions[i].uid, Do(s, Expire(i), atomic);
    StepKeeps(s, Expire(i), atomic);
    CountAppend(s.queue, Completion(uid), uid);
    assert t.sends == s.sends && t.now == s.now;
    var rest := QueuedFiresAtOnce(t, atomic, uid);
    Prepend(s, Expire(i), rest, atomic);
    more := [Expire(i)] + rest;
  }

  // ----- Single actions -----

  /** The action fires no more, however the run goes on from `t`. */
  ghost predicate NeverAgain(t: Loop, uid: nat, atomic: bool) {
    forall more: seq<Step> | Exec(t, more, atomic).Some? :: Firings(Exec(t, more, atomic).value.sends, uid) == Firings(t.sends, uid)
  }

  lemma {:induction false} FiringsWithin(s: seq<Send>, t: seq<Send>, uid: nat)
    requires s <= t
    ensures Firings(s, uid) <= Firings(t, uid)
    ensures (exists n :: |s| <= n < |t| && t[n].uid == uid) ==> Firings(s, uid) < Firings(t, uid)
  {
    if s == t {
    } else {
      FiringsWithin(s, t[..|t| - 1], uid);
      if t[|t| - 1].uid != uid && exists n :: |s| <= n < |t| && t[n].uid == uid {
        var n :| |s| <= n < |t| && t[n].uid == uid;
        assert t[..|t| - 1][n].uid == uid;
      }
    }
  }

  lemma GoneAfterFiring(s: Loop, encoded: seq<bv8>, atomic: bool)
    requires Inv(s, atomic) && Fires(s, RunNext(encoded)) && NewSend(s, encoded).kind.Single?
    ensures s.queue[0].uid in Uids(Do(s, RunNext(encoded), atomic).held.gone)
  {
    var l, uid := s.held, s.queue[0].uid;
    if Pending(l.actions, uid) {
      var i := Position(l.actions, uid);
      var fired := Updated(l, i, Fired(l.actions[i], encoded, s.now, atomic));
      UidsDropped(fired, i, atomic);
    } else {
      Membership(l.gone, uid);
      GoneStays(s, RunNext(encoded), atomic);
    }
  }

  lemma SingleFrom(s: Loop, encoded: seq<bv8>, atomic: bool, more: seq<Step>)
    requires Inv(s, atomic) && Fires(s, RunNext(encoded)) && NewSend(s, encoded).kind.Single?
    requires Exec(Do(s, RunNext(encoded), atomic), more, atomic).Some?
    ensures var t, d := Do(s, RunNext(encoded), atomic), NewSend(s, encoded);
            var u := Exec(t, more, atomic).value;
            && d.uid !in Uids(u.held.actions)
            && Firings(u.sends, d.uid) + Count(u.queue, d.uid) == Firings(t.sends, d.uid) + d.left
  {
    GoneAfterFiring(s, encoded, atomic);
    LeftIsQueued(s, encoded, atomic);
    FiringAdds(s, encoded, atomic);
    StepKeeps(s, RunNext(encoded), atomic);
    GoneFiresWhatWasQueued(Do(s, RunNext(encoded), atomic), more, atomic, s.queue[0].uid);
  }

  lemma SingleIsOverFrom(s: Loop, encoded: seq<bv8>, atomic: bool)
    requires Inv(s, atomic) && Fires(s, RunNext(encoded)) && NewSend(s, encoded).kind.Single?
    ensures var t, d := Do(s, RunNext(encoded), atomic), NewSend(s, encoded);
            NeverAgain(t, d.uid, atomic) <==> d.left == 0
  {
    var t, d := Do(s, RunNext(encoded), atomic), NewSend(s, encoded);
    FiringAdds(s, encoded, atomic);
    LeftIsQueued(s, encoded, atomic);
    StepKeeps(s, RunNext(encoded), atomic);
    if d.left == 0 {
      forall more: seq<Step> | Exec(t, more, atomic).Some?
        ensures Firings(Exec(t, more, atomic).value.sends, d.uid) == Firings(t.sends, d.uid)
      {
        SingleFrom(s, encoded, atomic, more);
        SendsGrow(t, more, atomic);
        FiringsWithin(t.sends, Exec(t, more, atomic).value.sends, d.uid);
      }
    } else {
      var more := QueuedFiresAtOnce(t, atomic, d.uid);
      SendsGrow(t, more, atomic);
      FiringsWithin(t.sends, Exec(t, more, atomic).value.sends, d.uid);
    }
  }

  /**
    A single action that fires is gone for good. It fires again exactly as often
    as completions of it were queued behind the one that is run, in so far as
    these are run; and never again if and only if there was none.
   */
  lemma {:induction false} SingleFiresLeft(run: seq<Step>, encoded: seq<bv8>, atomic: bool, more: seq<Step>)
    requires Exec(Initial, run, atomic).Some? && Fires(Exec(Initial, run, atomic).value, RunNext(encoded))
    requires NewSend(Exec(Initial, run, atomic).value, encoded).kind.Single?
    requires Exec(Do(Exec(Initial, run, atomic).value, RunNext(encoded), atomic), more, atomic).Some?
    ensures var s := Exec(Initial, run, atomic).value;
            var t, uid := Do(s, RunNext(encoded), atomic), s.queue[0].uid;
            var u := Exec(t, more, atomic).value;
            && uid !in Uids(u.held.actions)
            && Firings(u.sends, uid) + Count(u.queue, uid) == Firings(s.sends, uid) + Count(s.queue, uid)
            && (NeverAgain(t, uid, atomic) <==> Count(s.queue, uid) == 1)
  {
    RunKeeps(Initial, run, atomic);
    var s := Exec(Initial, run, atomic).value;
    FiringAdds(s, encoded, atomic);
    FiringsAppend(s.sends, NewSend(s, encoded), s.queue[0].uid);
    SingleFrom(s, encoded, atomic, more);
    SingleIsOverFrom(s, encoded, atomic);
  }

  // ----- Single actions in a prompt loop -----

  /** Every single action that was sent is gone, was sent once, and has nothing queued. */
  predicate SinglesOver(s: Loop) {
    forall n | 0 <= n < |s.sends| && s.sends[n].kind.Single? :: Over(s, s.sends[n].uid)
  }

  predicate Over(s: Loop, uid: nat) {
    uid in Uids(s.held.gone) && Firings(s.sends, uid) == 1 && Count(s.queue, uid) == 0
  }

  lemma {:induction false} FiringsAt(sends: seq<Send>, n: nat)
    requires n < |sends|
    ensures Firings(sends, sends[n].uid) > 0
  {
    if n < |sends| - 1 {
      FiringsAt(sends[..|sends| - 1], n);
      assert sends[..|sends| - 1][n] == sends[n];
    }
  }

  lemma {:induction false} SomeFiring(sends: seq<Send>, uid: nat) returns (n: nat)
    requires Firings(sends, uid) > 0
    ensures n < |sends| && sends[n].uid == uid
  {
    if sends[|sends| - 1].uid == uid {
      n := |sends| - 1;
    } else {
      n := SomeFiring(sends[..|sends| - 1], uid);
    }
  }

  lemma OverStays(s: Loop, x: Step, atomic: bool, uid: nat)
    requires Inv(s, atomic) && Enabled(s, x) && Over(s, uid)
    ensures Over(Do(s, x, atomic), uid)
  {
    AccountStep(s, x, atomic, uid);
    GoneStays(s, x, atomic);
    StepGrows(s, x, atomic);
    FiringsWithin(s.sends, Do(s, x, atomic).sends, uid);
  }

  /** What was sent before by the action that fires was of the same kind. */
  lemma SameKindBefore(s: Loop, encoded: seq<bv8>, atomic: bool, n: nat)
    requires Inv(s, atomic) && Fires(s, RunNext(encoded)) && n < |s.sends| && s.sends[n].uid == s.queue[0].uid
    ensures s.sends[n].kind.Single? == NewSend(s, encoded).kind.Single?
  {
    var t := Do(s, RunNext(encoded), atomic);
    FiringAdds(s, encoded, atomic);
    StepKeeps(s, RunNext(encoded), atomic);
    assert Spaced(t.sends[n], t.sends[|s.sends|]);
  }

  /** A single action that fires had not fired before, if those that had are over. */
  lemma FirstFiring(s: Loop, encoded: seq<bv8>, atomic: bool)
    requires Inv(s, atomic) && Fires(s, RunNext(encoded)) && SinglesOver(s) && NewSend(s, encoded).kind.Single?
    ensures Firings(s.sends, s.queue[0].uid) == 0
  {
    if Firings(s.sends, s.queue[0].uid) > 0 {
      var n := SomeFiring(s.sends, s.queue[0].uid);
      SameKindBefore(s, encoded, atomic, n);
      assert false;
    }
  }

  lemma OverAfterFiring(s: Loop, encoded: seq<bv8>, atomic: bool)
    requires Inv(s, atomic) && Fires(s, RunNext(encoded)) && SinglesOver(s)
    requires NewSend(s, encoded).kind.Single? && NewSend(s, encoded).left == 0
    ensures Over(Do(s, RunNext(encoded), atomic), s.queue[0].uid)
  {
    FirstFiring(s, encoded, atomic);
    FiringAdds(s, encoded, atomic);
    LeftIsQueued(s, encoded, atomic);
    GoneAfterFiring(s, encoded, atomic);
    FiringsAppend(s.sends, NewSend(s, encoded), s.queue[0].uid);
  }

  lemma PromptSingleStep(s: Loop, x: Step, atomic: bool)
    requires Inv(s, atomic) && Enabled(s, x) && SinglesOver(s)
    requires Fires(s, x) ==> NewSend(s, x.encoded).left == 0
    ensures SinglesOver(Do(s, x, atomic))
  {
    var t := Do(s, x, atomic);
    StepGrows(s, x, atomic);
    if Fires(s, x) {
      FiringAdds(s, x.encoded, atomic);
    }
    forall n | 0 <= n < |t.sends| && t.sends[n].kind.Single? ensures Over(t, t.sends[n].uid) {
      if n < |s.sends| {
        OverStays(s, x, atomic, s.sends[n].uid);
      } else {
        assert Fires(s, x);
        OverAfterFiring(s, x.encoded, atomic);
      }
    }
  }

  /**
    In a loop that looks at its timers only once it has run what they queued,
    every single action that fires does so once, is then gone, and has nothing
    queued, however cancelling behaves.
   */
  lemma {:induction false} PromptSinglesFireOnce(run: seq<Step>, atomic: bool)
    requires Exec(Initial, run, atomic).Some? && P.Prompt(run, atomic)
    ensures SinglesOver(Exec(Initial, run, atomic).value)
  {
    if run != [] {
      var shorter, x := run[..|run| - 1], run[|run| - 1];
      var s := Exec(Initial, shorter, atomic).value;
      PromptSinglesFireOnce(shorter, atomic);
      RunKeeps(Initial, shorter, atomic);
      P.PromptLoopLeavesNone(run, atomic);
      if Fires(s, x) {
        FiringAdds(s, x.encoded, atomic);
        assert Do(s, x, atomic).sends[|s.sends|] == NewSend(s, x.encoded);
      }
      PromptSingleStep(s, x, atomic);
    }
  }
}
