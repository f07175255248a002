/** What commands and completions do to the actions, in terms of the actions alone. */
module ActionEffects {
  import opened Basics
  import opened Scheduling

  /** The conversion goes towards zero, by less than one. */
  lemma TruncateMeans(x: real)
    ensures x >= 0.0 ==> 0.0 <= Truncate(x) as real <= x < Truncate(x) as real + 1.0
    ensures x <= 0.0 ==> Truncate(x) as real - 1.0 < x <= Truncate(x) as real <= 0.0
  {
  }

  /** A scheduled action has one wait, over after its period or interval, and at once if it is single. */
  lemma ArmedWait(a: Action, now: nat, atomic: bool)
    ensures var waits := Scheduled(a, now, atomic).timer.waits;
            match a.kind
            case Single => waits == [now]
            case Periodic(p) => waits == [now + p]
            case Sin(interval, _, _, _) => waits == [now + interval]
  {
  }

  /** Parameter 0 is the amplitude, 1 the period of the sine in whole units, 2 the offset; nothing else ever changes. */
  lemma ParamMeans(a: Action, param: int, value: real)
    ensures var b := WithParam(a, param, value);
            && b == a.(kind := b.kind)
            && (!a.kind.Sin? || param < 0 || param > 2 ==> b.kind == a.kind)
            && (a.kind.Sin? && param == 0 ==> b.kind == Sin(a.kind.interval, value, a.kind.sinPeriod, a.kind.offset))
            && (a.kind.Sin? && param == 1 ==> b.kind == Sin(a.kind.interval, a.kind.amplitude, Truncate(value), a.kind.offset))
            && (a.kind.Sin? && param == 2 ==> b.kind == Sin(a.kind.interval, a.kind.amplitude, a.kind.sinPeriod, value))
  {
  }

  /** What the snapshot shows of an action. */
  lemma InfoMeans(a: Action, idx: nat)
    ensures var i := Info(a, idx);
            && i.idx == idx && i.target == a.target && i.paused == a.paused && i.lastSent == a.sent
            && (match a.kind
                case Single => i.typeName == "Single" && !i.isPeriodic && i.period == 0
                case Periodic(p) => i.typeName == "Periodic" && i.isPeriodic && i.period == p
                case Sin(interval, amplitude, period, offset) =>
                  i.typeName == "Sin" && i.isPeriodic && i.period == interval
                  && i.sinAmplitude == amplitude && i.sinPeriod == period && i.sinOffset == offset)
            && (!a.kind.Sin? ==> i.sinAmplitude == 0.0 && i.sinPeriod == 0 && i.sinOffset == 0.0)
  {
  }

  /** Every action but the i-th is as before. */
  predicate OnlyAt(before: seq<Action>, after: seq<Action>, i: nat) {
    |after| == |before| && forall k | 0 <= k < |before| && k != i :: after[k] == before[k]
  }

  /** `after` is `before` without the i-th. */
  predicate TakenOut(before: seq<Action>, after: seq<Action>, i: nat) {
    && i < |before| && |after| == |before| - 1
    && forall k | 0 <= k < |after| :: after[k] == before[if k < i then k else k + 1]
  }

  /** What each posted command does; one with an index out of range does nothing. */
  lemma CommandMeans(l: Lists, c: Command, now: nat, atomic: bool)
    ensures var r := Ran(l, c, now, atomic);
            match c
            case Add(a, startPaused) =>
              && |r.actions| == |l.actions| + 1 && r.actions[..|l.actions|] == l.actions && r.gone == l.gone
              && var b := r.actions[|l.actions|];
              && b.uid == a.uid && b.kind == a.kind && b.payload == a.payload && b.paused == (startPaused || a.paused)
              && (startPaused ==> b.timer.waits == []) && (!startPaused ==> |b.timer.waits| == 1)
            case Remove(i) =>
              if i < |l.actions| then TakenOut(l.actions, r.actions, i) && |r.gone| == |l.gone| + 1
                                      && r.gone[|l.gone|].uid == l.actions[i].uid && r.gone[|l.gone|].timer.waits == []
              else r == l
            case TogglePause(i) =>
              if i < |l.actions| then OnlyAt(l.actions, r.actions, i) && r.gone == l.gone
                                      && r.actions[i].paused == !l.actions[i].paused
                                      && r.actions[i].kind == l.actions[i].kind && r.actions[i].payload == l.actions[i].payload
                                      && (r.actions[i].paused <==> r.actions[i].timer.waits == [])
              else r == l
            case UpdateSinParam(i, param, value) =>
              if i < |l.actions| then OnlyAt(l.actions, r.actions, i) && r.gone == l.gone
                                      && r.actions[i] == l.actions[i].(kind := r.actions[i].kind)
                                      && r.actions[i].kind == WithParam(l.actions[i], param, value).kind
              else r == l
            case UpdatePayload(i, payload) =>
              if i < |l.actions| then OnlyAt(l.actions, r.actions, i) && r.gone == l.gone
                                      && r.actions[i] == l.actions[i].(payload := payload)
              else r == l
  {
    if c.UpdateSinParam? && c.idx < |l.actions| {
      ParamMeans(l.actions[c.idx], c.param, c.value);
    }
  }

  /** A completion marks the action as sent now; a single one is taken out, another waits again, with the new payload if sine. */
  lemma CompletionMeans(l: Lists, i: nat, encoded: seq<bv8>, now: nat, atomic: bool)
    requires i < |l.actions| && l.actions[i].timer.ready > 0
    ensures var r, a := Completed(l, i, encoded, now, atomic), l.actions[i];
            if a.kind.Single? then TakenOut(l.actions, r.actions, i)
            else && OnlyAt(l.actions, r.actions, i) && r.gone == l.gone
                 && var b := r.actions[i];
                 && b.uid == a.uid && b.kind == a.kind && b.target == a.target && b.paused == a.paused && b.sent == Some(now)
                 && b.payload == (if a.kind.Sin? then encoded else a.payload)
                 && |b.timer.waits| == 1
                 && (a.kind.Periodic? ==> b.timer.waits[0] == now + a.kind.period)
                 && (a.kind.Sin? ==> b.timer.waits[0] == now + a.kind.interval)
  {
  }
}
