/** The action handler as the event loop runs it: commands and completions change the list in place. */
module ActionHandling {
  import opened Basics
  import opened Scheduling

  /** What was handed to the send function. */
  datatype Sent = Sent(target: Target, payload: seq<bv8>)

  class ActionHandler {
    var actions: seq<Action>
    var snapshot: seq<ActionInfo>
    /** What was handed to the send function, and the destroyed actions. */
    var sends: seq<Sent>
    var gone: seq<Action>

    function Held(): Lists
      reads this
    {
      Lists(actions, gone)
    }

    constructor ()
      ensures actions == [] && snapshot == [] && sends == [] && gone == []
    {
      actions, snapshot, sends, gone := [], [], [], [];
    }

    method RebuildSnapshot()
      modifies this`snapshot
      ensures snapshot == Projection(actions)
    {
      var snap: seq<ActionInfo> := [];
      for i := 0 to |actions|
        invariant |snap| == i
        invariant forall j | 0 <= j < i :: snap[j] == Info(actions[j], j)
      {
        snap := snap + [Info(actions[i], i)];
      }
      snapshot := snap;
    }

    method Add(a: Action, startPaused: bool, now: nat, atomic: bool)
      modifies this
      ensures Held() == Ran(old(Held()), Command.Add(a, startPaused), now, atomic)
      ensures snapshot == Projection(actions) && sends == old(sends)
    {
      actions := actions + [a];
      var last := |actions| - 1;
      actions := actions[last := Scheduled(actions[last], now, atomic)];
      if startPaused {
        actions := actions[last := Paused(actions[last], now, atomic)];
      }
      assert actions == old(actions) + [Started(a, startPaused, now, atomic)];
      RebuildSnapshot();
    }

    /** Erasing destroys the action, whose timer is cancelled; a completion that is already queued stays queued. */
    method Erase(i: nat, atomic: bool)
      requires i < |actions|
      modifies this`actions, this`gone
      ensures Held() == Dropped(old(Held()), i, atomic)
    {
      var a := actions[i];
      a := a.(timer := a.timer.(waits := []));
      if atomic {
        a := a.(timer := a.timer.(ready := 0));
      }
      actions := actions[..i] + actions[i + 1..];
      gone := gone + [a];
    }

    method Remove(idx: nat, now: nat, atomic: bool)
      modifies this
      ensures Held() == Ran(old(Held()), Command.Remove(idx), now, atomic)
      ensures old(snapshot) == Projection(old(actions)) ==> snapshot == Projection(actions)
      ensures sends == old(sends)
    {
      if idx >= |actions| {
        return;
      }
      Erase(idx, atomic);
      RebuildSnapshot();
    }

    method TogglePause(idx: nat, now: nat, atomic: bool)
      modifies this
      ensures Held() == Ran(old(Held()), Command.TogglePause(idx), now, atomic)
      ensures old(snapshot) == Projection(old(actions)) ==> snapshot == Projection(actions)
      ensures sends == old(sends)
    {
      if idx >= |actions| {
        return;
      }
      if actions[idx].paused {
        actions := actions[idx := Resumed(actions[idx], now, atomic)];
      } else {
        actions := actions[idx := Paused(actions[idx], now, atomic)];
      }
      RebuildSnapshot();
    }

    method UpdateSinParam(idx: nat, param: int, value: real)
      modifies this
      ensures forall now, atomic :: Held() == Ran(old(Held()), Command.UpdateSinParam(idx, param, value), now, atomic)
      ensures old(snapshot) == Projection(old(actions)) ==> snapshot == Projection(actions)
      ensures sends == old(sends)
    {
      if idx >= |actions| {
        return;
      }
      if !actions[idx].kind.Sin? {
        assert actions == actions[idx := WithParam(actions[idx], param, value)];
        return;
      }
      var kind := actions[idx].kind;
      if param == 0 {
        kind := kind.(amplitude := value);
      } else if param == 1 {
        kind := kind.(sinPeriod := Truncate(value));
      } else if param == 2 {
        kind := kind.(offset := value);
      }
      actions := actions[idx := actions[idx].(kind := kind)];
      RebuildSnapshot();
    }

    /** The payload is not part of the snapshot, which is not rebuilt. */
    method UpdatePayload(idx: nat, payload: seq<bv8>)
      modifies this
      ensures forall now, atomic :: Held() == Ran(old(Held()), Command.UpdatePayload(idx, payload), now, atomic)
      ensures old(snapshot) == Projection(old(actions)) ==> snapshot == Projection(actions)
      ensures sends == old(sends)
    {
      if idx < |actions| {
        actions := actions[idx := actions[idx].(payload := payload)];
        assert Projection(actions) == Projection(old(actions));
      }
    }

    /** A timer completion: encode if sine, send, publish, then schedule again or remove. */
    method OnTimer(i: nat, encoded: seq<bv8>, now: nat, atomic: bool)
      requires i < |actions| && actions[i].timer.ready > 0
      modifies this
      ensures Held() == Completed(old(Held()), i, encoded, now, atomic)
      ensures snapshot == Projection(actions)
      ensures var a := old(actions)[i];
              sends == old(sends) + [Sent(a.target, if a.kind.Sin? then encoded else a.payload)]
    {
      var a := actions[i];
      a := a.(timer := a.timer.(ready := a.timer.ready - 1));
      if a.kind.Sin? {
        a := a.(payload := encoded);
      }
      sends := sends + [Sent(a.target, a.payload)];
      a := a.(sent := Some(now));
      actions := actions[i := a];
      RebuildSnapshot();
      if a.kind.Single? {
        Erase(i, atomic);
        RebuildSnapshot();
      } else {
        actions := actions[i := Scheduled(a, now, atomic)];
        assert Projection(actions) == snapshot;
      }
    }

    /** A completion that was queued before its action was destroyed: read as the dead object still holds its values. */
    method OnStrayTimer(j: nat, encoded: seq<bv8>)
      requires j < |gone| && gone[j].timer.ready > 0
      modifies this
      ensures Held() == Strayed(old(Held()), j)
      ensures snapshot == Projection(actions)
      ensures var g := old(gone)[j];
              sends == old(sends) + [Sent(g.target, if g.kind.Sin? then encoded else g.payload)]
    {
      var g := gone[j];
      gone := gone[j := g.(timer := g.timer.(ready := g.timer.ready - 1))];
      sends := sends + [Sent(g.target, if g.kind.Sin? then encoded else g.payload)];
      RebuildSnapshot();
    }
  }
}
