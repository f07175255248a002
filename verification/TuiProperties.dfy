/** What holds of the terminal interface after any sequence of events, whatever the other threads do meanwhile. */
module TuiProperties {
  import opened Basics
  import opened TuiEvents
  import Bits

  // ----- The invariant -----

  predicate AtMessage(c: Config, n: Nav) {
    n.tab == 1 && n.msg < |Messages(c, n)|
  }

  /** Where the cursors may be. */
  predicate Placed(c: Config, n: Nav) {
    && n.level <= 3
    && n.tab < TabCount(c)
    && (n.level == 2 ==> n.tab == 2 || AtMessage(c, n) || (n.tab == PlaybackTab(c) && c.playback))
    && (n.level == 3 ==> AtMessage(c, n) && n.sig <= SignalCount(c, n) + 1)
    && (c.interfaces != [] ==> n.subSend < |c.interfaces|)
  }

  predicate NoMode(u: Ui) {
    !u.actionEdit.on && u.wizard.step.NoStep? && !u.edit.on && !u.search.on
  }

  predicate AtMostOneMode(u: Ui) {
    && (u.actionEdit.on ==> u.wizard.step.NoStep? && !u.edit.on && !u.search.on)
    && (!u.wizard.step.NoStep? ==> !u.edit.on && !u.search.on)
    && (u.edit.on ==> !u.search.on)
  }

  /** Where each mode may be active; a mode that is not holds no text. */
  predicate ModesPlaced(c: Config, u: Ui) {
    && (if u.actionEdit.on then u.nav.level == 2 && u.nav.tab == 2 else u.actionEdit == Closed)
    && (if u.edit.on then u.nav.level == 3 && AtMessage(c, u.nav) && u.nav.sig < SignalCount(c, u.nav) else u.edit == Closed)
    && (if u.search.on then u.nav.tab == 0 && u.nav.level <= 1 else u.search == Closed)
    && (if u.wizard.step.NoStep? then u.wizard == NoWizard
        else u.nav.level == 3 && AtMessage(c, u.nav) && u.nav.sig == SignalCount(c, u.nav) + 1)
  }

  /** A decimal under entry: digits, at most one point, a minus only in front. */
  predicate Decimal(s: string) {
    && (forall i | 0 <= i < |s| :: IsDigit(s[i]) || s[i] == '.' || (i == 0 && s[i] == '-'))
    && (forall i, j | 0 <= i < j < |s| :: s[i] == '.' ==> s[j] != '.')
  }

  /** Past its first step the wizard holds a positive interval, the one shown in its field. */
  predicate WizardSound(z: Wizard) {
    && AllDigits(z.interval) && AllDigits(z.period) && Decimal(z.amplitude) && Decimal(z.offset)
    && (!z.step.NoStep? && !z.step.Period? ==> z.intervalMs > 0 && Stol(z.interval) == Some(z.intervalMs))
    && (z.step.SinAmplitude? || z.step.SinPeriod? || z.step.SinOffset? || z.step.SinReady? ==> z.sine)
  }

  predicate IsMessage(c: Config, iface: string, m: nat) {
    iface in c.models && m < |c.models[iface]|
  }

  /** Commands name existing messages and signals, and cyclic actions have positive times. */
  predicate Sound(c: Config, command: Command) {
    match command
    case CreateSingle(iface, m) => IsMessage(c, iface, m)
    case CreatePeriodic(iface, m, period) => IsMessage(c, iface, m) && period > 0
    case CreateSin(iface, m, sig, interval, _, period, _) =>
      IsMessage(c, iface, m) && sig + 1 == c.models[iface][m].signals && interval > 0 && period > 0
    case SetValue(iface, m, sig, _) => IsMessage(c, iface, m) && sig < c.models[iface][m].signals
    case UpdatePayload(_, iface, m) => IsMessage(c, iface, m)
    case _ => true
  }

  predicate AllSound(c: Config, out: seq<Command>) {
    forall i | 0 <= i < |out| :: Sound(c, out[i])
  }

  ghost predicate Inv(c: Config, u: Ui) {
    Placed(c, u.nav) && AtMostOneMode(u) && ModesPlaced(c, u) && WizardSound(u.wizard) && AllSound(c, u.out)
  }

  // ----- Every event keeps it -----

  lemma DropLastKeeps(s: string)
    ensures AllDigits(s) ==> AllDigits(DropLast(s))
    ensures Decimal(s) ==> Decimal(DropLast(s))
  {
  }

  lemma NumberInputKeeps(buf: string, decimal: bool, e: Event)
    ensures decimal && Decimal(buf) ==> Decimal(NumberInput(buf, decimal, e).0)
    ensures !decimal && AllDigits(buf) ==> AllDigits(NumberInput(buf, decimal, e).0)
  {
    DropLastKeeps(buf);
  }

  lemma ActionCommitSound(c: Config, u: Ui, w: World)
    ensures AllSound(c, ActionCommit(c, u, w))
  {
  }

  lemma ActionEditKeeps(c: Config, u: Ui, e: Event, w: World)
    requires Inv(c, u) && u.actionEdit.on
    ensures Inv(c, OnActionEdit(c, u, e, w).ui)
  {
    ActionCommitSound(c, u, w);
  }

  lemma CreatedSound(c: Config, u: Ui)
    requires Inv(c, u)
    ensures AllSound(c, WithSingle(c, u).out)
    ensures u.wizard.intervalMs > 0 ==> AllSound(c, WithPeriodic(c, u).out)
  {
  }

  lemma SinSound(c: Config, u: Ui, amplitude: real, periodMs: nat, offset: real)
    requires Inv(c, u) && u.wizard.step.SinReady? && periodMs > 0
    ensures AllSound(c, WithSin(c, u, amplitude, periodMs, offset).out)
  {
  }

  lemma PeriodKeeps(c: Config, u: Ui, e: Event)
    requires Inv(c, u) && u.wizard.step.Period?
    ensures Inv(c, OnPeriod(u, e).ui)
  {
    DropLastKeeps(u.wizard.interval);
  }

  lemma TypeSelectKeeps(c: Config, u: Ui, e: Event)
    requires Inv(c, u) && u.wizard.step.TypeSelect?
    ensures Inv(c, OnTypeSelect(c, u, e).ui)
  {
    if e.Return? && !u.wizard.sine {
      CreatedSound(c, u);
      assert Inv(c, WithPeriodic(c, u).(wizard := NoWizard));
    }
  }

  lemma FieldKeeps(c: Config, u: Ui, e: Event)
    requires Inv(c, u)
    requires u.wizard.step.SinAmplitude? || u.wizard.step.SinPeriod? || u.wizard.step.SinOffset?
    ensures Inv(c, OnField(u, e).ui)
  {
    NumberInputKeeps(u.wizard.amplitude, true, e);
    NumberInputKeeps(u.wizard.offset, true, e);
    NumberInputKeeps(u.wizard.period, false, e);
  }

  lemma SinReadyKeeps(c: Config, u: Ui, e: Event)
    requires Inv(c, u) && u.wizard.step.SinReady?
    ensures Inv(c, OnSinReady(c, u, e).ui)
  {
    var p := SinParameters(c, u.wizard);
    if p.Some? { SinSound(c, u, p.value.0, p.value.1, p.value.2); }
  }

  lemma WizardKeeps(c: Config, u: Ui, e: Event)
    requires Inv(c, u) && !u.wizard.step.NoStep?
    ensures Inv(c, OnWizard(c, u, e).ui)
  {
    if e.Escape? {
    } else if u.wizard.step.Period? {
      PeriodKeeps(c, u, e);
    } else if u.wizard.step.TypeSelect? {
      TypeSelectKeeps(c, u, e);
    } else if u.wizard.step.SinReady? {
      SinReadyKeeps(c, u, e);
    } else {
      FieldKeeps(c, u, e);
    }
  }

  lemma SendEditKeeps(c: Config, u: Ui, e: Event)
    requires Inv(c, u) && u.edit.on
    ensures Inv(c, OnSendEdit(c, u, e).ui)
  {
  }

  lemma SearchKeeps(c: Config, u: Ui, e: Event)
    requires Inv(c, u) && u.search.on
    ensures Inv(c, OnSearch(u, e).ui)
  {
  }

  lemma JumpKeeps(c: Config, u: Ui, tab: nat)
    requires Inv(c, u) && NoMode(u) && tab < TabCount(c)
    ensures Inv(c, Jump(u, tab).ui)
  {
  }

  lemma ShortcutKeeps(c: Config, u: Ui, e: Event)
    requires Inv(c, u) && NoMode(u) && OnShortcut(c, u, e).Some?
    requires u.nav.tab == 0 ==> u.nav.level <= 1
    ensures Inv(c, OnShortcut(c, u, e).value.ui)
  {
    var v := OnShortcut(c, u, e).value.ui;
    if v.nav == u.nav && v.search == u.search {
      assert v == u.(out := v.out) && AllSound(c, v.out);
    } else if v.nav == u.nav {
      assert v == u.(search := v.search);
    } else {
      assert v == Jump(u, v.nav.tab).ui && v.nav.tab < TabCount(c);
      JumpKeeps(c, u, v.nav.tab);
    }
  }

  lemma SignalsKeep(c: Config, u: Ui, e: Event, w: World)
    requires Inv(c, u) && NoMode(u) && u.nav.level == 3
    ensures Inv(c, OnSignals(c, u, e, w).ui)
  {
    CreatedSound(c, u);
  }

  lemma SecondLevelKeeps(c: Config, u: Ui, e: Event, w: World)
    requires Inv(c, u) && NoMode(u) && u.nav.level == 2
    ensures u.nav.tab == PlaybackTab(c) && c.playback ==> Inv(c, OnPlaybackFilter(u, e, w).ui)
    ensures u.nav.tab == 2 ==> Inv(c, OnActionView(c, u, e, w).ui)
    ensures AtMessage(c, u.nav) ==> Inv(c, OnMessages(c, u, e).ui)
  {
  }

  lemma ListsKeep(c: Config, u: Ui, e: Event, w: World)
    requires Inv(c, u) && NoMode(u) && u.nav.level == 1
    ensures u.nav.tab == PlaybackTab(c) && c.playback ==> Inv(c, OnPlaybackList(u, e, w).ui)
    ensures u.nav.tab == 2 ==> Inv(c, OnActionList(u, e, w).ui)
  {
  }

  lemma SubTabsKeep(c: Config, u: Ui, e: Event, w: World)
    requires Inv(c, u) && NoMode(u) && u.nav.level == 1 && u.nav.tab != 2
    ensures Inv(c, OnSubTabs(c, u, e, w).ui)
  {
  }

  lemma NavigationKeeps(c: Config, u: Ui, e: Event, w: World)
    requires Inv(c, u) && NoMode(u)
    ensures Inv(c, OnNavigation(c, u, e, w).ui)
  {
    if u.nav.level == 3 {
      SignalsKeep(c, u, e, w);
    } else if u.nav.level == 2 {
      SecondLevelKeeps(c, u, e, w);
    } else if u.nav.level == 1 {
      ListsKeep(c, u, e, w);
      if u.nav.tab != 2 { SubTabsKeep(c, u, e, w); }
    } else {
      MainTabsKeep(c, u, e);
    }
  }

  lemma MainTabsKeep(c: Config, u: Ui, e: Event)
    requires Inv(c, u) && NoMode(u) && u.nav.level == 0
    ensures Inv(c, OnMainTabs(c, u, e).ui)
  {
  }

  lemma EventKeeps(c: Config, u: Ui, e: Event, w: World)
    requires Inv(c, u)
    ensures Inv(c, OnEvent(c, u, e, w).ui)
  {
    if u.actionEdit.on {
      ActionEditKeeps(c, u, e, w);
    } else if !u.wizard.step.NoStep? {
      WizardKeeps(c, u, e);
    } else if u.edit.on {
      SendEditKeeps(c, u, e);
    } else if u.search.on {
      SearchKeeps(c, u, e);
    } else if OnShortcut(c, u, e).Some? {
      ShortcutKeeps(c, u, e);
    } else {
      NavigationKeeps(c, u, e, w);
    }
  }

  // ----- Runs -----

  function Run(c: Config, u: Ui, inputs: seq<(Event, World)>): Ui
    decreases |inputs|
  {
    if inputs == [] then u else Run(c, OnEvent(c, u, inputs[0].0, inputs[0].1).ui, inputs[1..])
  }

  lemma {:induction false} RunKeeps(c: Config, u: Ui, inputs: seq<(Event, World)>)
    requires Inv(c, u)
    ensures Inv(c, Run(c, u, inputs))
    decreases |inputs|
  {
    if inputs != [] {
      EventKeeps(c, u, inputs[0].0, inputs[0].1);
      RunKeeps(c, OnEvent(c, u, inputs[0].0, inputs[0].1).ui, inputs[1..]);
    }
  }

  /** Every state the interface can reach, from any sequence of events and any concurrent changes. */
  lemma ReachableIsSound(c: Config, inputs: seq<(Event, World)>)
    ensures Inv(c, Run(c, Initial, inputs))
  {
    RunKeeps(c, Initial, inputs);
  }

  // ----- What one event issues -----

  /** The command names a row that was in the list when the key was pressed. */
  predicate NamesRow(u: Ui, w: World, command: Command) {
    match command
    case UpdateSinParam(i, _, _) => i == u.nav.action < |w.actions| && w.actions[i].sin
    case UpdatePayload(i, iface, _) => i == u.nav.action < |w.actions| && !w.actions[i].sin && w.actions[i].iface == iface
    case TogglePause(i) => i == u.nav.action < |w.actions|
    case RemoveAction(i) => i == u.nav.action < |w.actions|
    case ToggleInterface(p) => p == u.nav.player < |w.playback|
    case ToggleMessage(p, _) => p == u.nav.player < |w.playback|
    case _ => true
  }

  predicate Creates(command: Command) {
    command.CreatePeriodic? || command.CreateSin? || command.SetValue? || command.UpdateSinParam? || command.UpdatePayload?
  }

  /** v follows u by at most two commands, each naming the selected row; in a mode they only commit what the mode edits. */
  predicate Issues(u: Ui, w: World, v: Ui, mode: bool) {
    && u.out <= v.out && |v.out| <= |u.out| + 2
    && (forall i | |u.out| <= i < |v.out| :: NamesRow(u, w, v.out[i]) && (mode ==> Creates(v.out[i])))
    && (mode ==> v.nav == u.nav)
  }

  lemma ActionEditIssues(c: Config, u: Ui, e: Event, w: World)
    ensures Issues(u, w, OnActionEdit(c, u, e, w).ui, true)
  {
    var commit := ActionCommit(c, u, w);
    assert forall i | 0 <= i < |commit| :: NamesRow(u, w, commit[i]) && Creates(commit[i]);
  }

  lemma OtherModesIssue(c: Config, u: Ui, e: Event, w: World)
    ensures Issues(u, w, OnWizard(c, u, e).ui, true)
    ensures Issues(u, w, OnSendEdit(c, u, e).ui, true)
    ensures Issues(u, w, OnSearch(u, e).ui, true)
  {
  }

  lemma SecondLevelIssues(c: Config, u: Ui, e: Event, w: World)
    ensures Issues(u, w, OnPlaybackFilter(u, e, w).ui, false)
    ensures Issues(u, w, OnActionView(c, u, e, w).ui, false)
    ensures Issues(u, w, OnMessages(c, u, e).ui, false)
  {
  }

  lemma SignalsIssue(c: Config, u: Ui, e: Event, w: World)
    ensures Issues(u, w, OnSignals(c, u, e, w).ui, false)
  {
  }

  lemma FirstLevelIssues(c: Config, u: Ui, e: Event, w: World)
    ensures Issues(u, w, OnPlaybackList(u, e, w).ui, false)
    ensures Issues(u, w, OnActionList(u, e, w).ui, false)
    ensures Issues(u, w, OnSubTabs(c, u, e, w).ui, false)
  {
  }

  lemma ShortcutIssues(c: Config, u: Ui, e: Event, w: World)
    requires OnShortcut(c, u, e).Some?
    ensures Issues(u, w, OnShortcut(c, u, e).value.ui, false)
  {
  }

  lemma MainTabsIssue(c: Config, u: Ui, e: Event, w: World)
    ensures Issues(u, w, OnMainTabs(c, u, e).ui, false)
  {
  }

  /** An event only adds commands, each naming the selected row; while a mode is active the cursors stay put
      and nothing is removed, paused, toggled or quit. */
  lemma CommandsOfOneEvent(c: Config, u: Ui, e: Event, w: World)
    ensures Issues(u, w, OnEvent(c, u, e, w).ui, !NoMode(u))
  {
    var v := OnEvent(c, u, e, w).ui;
    if !NoMode(u) {
      assert v == OnActionEdit(c, u, e, w).ui || v == OnWizard(c, u, e).ui || v == OnSendEdit(c, u, e).ui
             || v == OnSearch(u, e).ui;
      ActionEditIssues(c, u, e, w);
      OtherModesIssue(c, u, e, w);
    } else if OnShortcut(c, u, e).Some? {
      ShortcutIssues(c, u, e, w);
    } else {
      assert v == OnNavigation(c, u, e, w).ui;
      assert v == OnSignals(c, u, e, w).ui || v == OnPlaybackFilter(u, e, w).ui || v == OnActionView(c, u, e, w).ui
             || v == OnMessages(c, u, e).ui || v == OnPlaybackList(u, e, w).ui || v == OnActionList(u, e, w).ui
             || v == OnSubTabs(c, u, e, w).ui || v == OnMainTabs(c, u, e).ui;
      SignalsIssue(c, u, e, w);
      SecondLevelIssues(c, u, e, w);
      FirstLevelIssues(c, u, e, w);
      MainTabsIssue(c, u, e, w);
    }
  }

  /** Escape leaves any mode without a trace, and quits only from none. */
  lemma EscapeCancels(c: Config, u: Ui, w: World)
    requires Inv(c, u)
    ensures var v := OnEvent(c, u, Escape, w).ui;
            if NoMode(u) then v == u.(out := u.out + [Quit])
            else v == u.(actionEdit := Closed, wizard := NoWizard, edit := Closed, search := Closed)
  {
  }

  // ----- Every message can be chosen, and every period typed -----

  function Keys(inputs: seq<(Event, World)>): seq<Event> {
    seq(|inputs|, i requires 0 <= i < |inputs| => inputs[i].0)
  }

  function Times(e: Event, count: nat): seq<Event> {
    seq(count, _ => e)
  }

  lemma {:induction false} RunSplit(c: Config, u: Ui, a: seq<(Event, World)>, b: seq<(Event, World)>)
    ensures Run(c, u, a + b) == Run(c, Run(c, u, a), b)
    decreases |a|
  {
    if a == [] {
      assert a + b == b;
    } else {
      assert (a + b)[1..] == a[1..] + b;
      RunSplit(c, OnEvent(c, u, a[0].0, a[0].1).ui, a[1..], b);
    }
  }

  /** Running the first i inputs, then the others. */
  lemma RunAt(c: Config, u: Ui, i: nat, inputs: seq<(Event, World)>)
    requires i <= |inputs|
    ensures Run(c, u, inputs) == Run(c, Run(c, u, inputs[..i]), inputs[i..])
  {
    assert inputs == inputs[..i] + inputs[i..];
    RunSplit(c, u, inputs[..i], inputs[i..]);
  }

  lemma RunFirst(c: Config, u: Ui, inputs: seq<(Event, World)>)
    requires inputs != []
    ensures Run(c, u, inputs) == Run(c, OnEvent(c, u, inputs[0].0, inputs[0].1).ui, inputs[1..])
  {
  }

  /** Going round n places from a to k takes this many steps. */
  function Steps(a: nat, k: nat, n: nat): nat
    requires a < n && k < n
  {
    if k >= a then k - a else k + n - a
  }

  lemma NextStep(a: nat, k: nat, n: nat)
    requires a < n && k < n && a != k
    ensures (a + 1) % n < n && Steps((a + 1) % n, k, n) == Steps(a, k, n) - 1
  {
    Bits.ModUnique(a + 1, n, if a + 1 == n then 1 else 0, if a + 1 == n then 0 else a + 1);
  }

  lemma {:induction false} RightMoves(c: Config, u: Ui, k: nat, inputs: seq<(Event, World)>)
    requires NoMode(u) && u.nav.level == 1 && u.nav.tab == 1 && u.nav.subSend < |c.interfaces| && k < |c.interfaces|
    requires |inputs| == Steps(u.nav.subSend, k, |c.interfaces|)
    requires forall i | 0 <= i < |inputs| :: inputs[i].0 == Right
    ensures Run(c, u, inputs) == u.(nav := u.nav.(subSend := k))
    decreases |inputs|
  {
    if u.nav.subSend != k {
      NextStep(u.nav.subSend, k, |c.interfaces|);
      var v := u.(nav := u.nav.(subSend := (u.nav.subSend + 1) % |c.interfaces|));
      assert inputs[0].0 == Right;
      assert OnEvent(c, u, Right, inputs[0].1).ui == v;
      RightMoves(c, v, k, inputs[1..]);
    }
  }

  lemma {:induction false} DownMoves(c: Config, u: Ui, inputs: seq<(Event, World)>)
    requires NoMode(u) && u.nav.level == 2 && u.nav.tab == 1 && u.nav.msg + |inputs| < |Messages(c, u.nav)|
    requires forall i | 0 <= i < |inputs| :: inputs[i].0 == Down
    ensures Run(c, u, inputs) == u.(nav := u.nav.(msg := u.nav.msg + |inputs|))
    decreases |inputs|
  {
    if inputs != [] {
      DownMoves(c, OnEvent(c, u, Down, inputs[0].1).ui, inputs[1..]);
    }
  }

  function SelectKeys(rights: nat, downs: nat): seq<Event> {
    Times(Right, rights) + [Down] + Times(Down, downs) + [Right]
  }

  lemma KeysAt(inputs: seq<(Event, World)>, keys: seq<Event>)
    requires Keys(inputs) == keys
    ensures |inputs| == |keys| && forall i | 0 <= i < |keys| :: inputs[i].0 == keys[i]
  {
    forall i | 0 <= i < |inputs| ensures inputs[i].0 == keys[i] { assert Keys(inputs)[i] == keys[i]; }
  }

  lemma DownAndRight(c: Config, u: Ui, m: nat, inputs: seq<(Event, World)>)
    requires NoMode(u) && u.nav.level == 1 && u.nav.tab == 1 && m < |Messages(c, u.nav)|
    requires |inputs| == m + 2 && inputs[0].0 == Down && inputs[m + 1].0 == Right
    requires forall i | 1 <= i <= m :: inputs[i].0 == Down
    ensures Run(c, u, inputs) == u.(nav := u.nav.(level := 3, msg := m, sig := 0))
  {
    RunFirst(c, u, inputs);
    var rest, y := inputs[1..], u.(nav := u.nav.(msg := 0, level := 2));
    assert OnEvent(c, u, inputs[0].0, inputs[0].1).ui == y;
    RunAt(c, y, m, rest);
    DownMoves(c, y, rest[..m]);
    RunFirst(c, y.(nav := y.nav.(msg := m)), rest[m..]);
  }

  lemma RightThenDown(c: Config, u: Ui, k: nat, m: nat, inputs: seq<(Event, World)>)
    requires NoMode(u) && u.nav.level == 1 && u.nav.tab == 1 && u.nav.subSend < |c.interfaces|
    requires k < |c.interfaces| && c.interfaces[k] in c.models && m < |c.models[c.interfaces[k]]|
    requires Keys(inputs) == SelectKeys(Steps(u.nav.subSend, k, |c.interfaces|), m)
    ensures Run(c, u, inputs) == u.(nav := u.nav.(level := 3, subSend := k, msg := m, sig := 0))
  {
    var r := Steps(u.nav.subSend, k, |c.interfaces|);
    KeysAt(inputs, SelectKeys(r, m));
    RunAt(c, u, r, inputs);
    RightMoves(c, u, k, inputs[..r]);
    var x := u.(nav := u.nav.(subSend := k));
    assert SelectedIface(c, x.nav) == c.interfaces[k];
    DownAndRight(c, x, m, inputs[r..]);
  }

  /** From wherever no mode is active, these keys select message m of interface k. */
  lemma EveryMessageCanBeSelected(c: Config, u: Ui, k: nat, m: nat, inputs: seq<(Event, World)>)
    requires Inv(c, u) && NoMode(u)
    requires k < |c.interfaces| && c.interfaces[k] in c.models && m < |c.models[c.interfaces[k]]|
    requires Keys(inputs) == [Character('s', "")] + SelectKeys(Steps(u.nav.subSend, k, |c.interfaces|), m)
    ensures Run(c, u, inputs) == u.(nav := u.nav.(level := 3, tab := 1, subSend := k, msg := m, sig := 0))
    ensures var n := Run(c, u, inputs).nav;
            && SelectedIface(c, n) == c.interfaces[k] && Messages(c, n) == c.models[c.interfaces[k]]
            && MsgIndex(c, n) == m && SignalCount(c, n) == c.models[c.interfaces[k]][m].signals
  {
    assert Keys(inputs)[0] == Character('s', "");
    assert Keys(inputs)[1..] == Keys(inputs[1..]);
    RunFirst(c, u, inputs);
    var v := u.(nav := u.nav.(tab := 1, level := 1));
    assert OnEvent(c, u, inputs[0].0, inputs[0].1).ui == v;
    RightThenDown(c, v, k, m, inputs[1..]);
  }

  lemma {:induction false} DigitsAreTyped(c: Config, u: Ui, digits: string, inputs: seq<(Event, World)>)
    requires !u.actionEdit.on && u.wizard.step.Period? && AllDigits(digits)
    requires |inputs| == |digits| && forall i | 0 <= i < |digits| :: inputs[i].0 == Character(digits[i], "")
    ensures Run(c, u, inputs) == u.(wizard := u.wizard.(interval := u.wizard.interval + digits))
    decreases |digits|
  {
    if digits == "" {
      assert u.wizard.interval + digits == u.wizard.interval;
    } else {
      var v := OnEvent(c, u, inputs[0].0, inputs[0].1).ui;
      DigitsAreTyped(c, v, digits[1..], inputs[1..]);
      assert u.wizard.interval + [digits[0]] + digits[1..] == u.wizard.interval + digits;
    }
  }

  function WizardKeys(digits: string): seq<Event> {
    [Character('2', "")] + seq(|digits|, i requires 0 <= i < |digits| => Character(digits[i], "")) + [Return, Return]
  }

  lemma ReturnTwice(c: Config, u: Ui, inputs: seq<(Event, World)>)
    requires u.wizard.step.Period? && !u.actionEdit.on && !u.wizard.sine
    requires u.wizard.intervalMs == 0 && AllDigits(u.wizard.interval)
    requires |inputs| == 2 && inputs[0].0 == Return && inputs[1].0 == Return
    ensures Run(c, u, inputs) == Confirmed(c, u)
  {
    RunFirst(c, u, inputs);
    var v := OnEvent(c, u, Return, inputs[0].1).ui;
    RunFirst(c, v, inputs[1..]);
    assert inputs[1..][1..] == [];
    assert u == u.(wizard := u.wizard.(intervalMs := 0, step := Period));
  }

  /** The interface after the typed interval was confirmed as a constant action. */
  function Confirmed(c: Config, u: Ui): Ui {
    var value := DigitsValue(u.wizard.interval);
    if 0 < value < 0x8000_0000_0000_0000 then WithPeriodic(c, u.(wizard := u.wizard.(intervalMs := value))).(wizard := NoWizard)
    else u
  }

  lemma DigitsThenReturns(c: Config, u: Ui, digits: string, inputs: seq<(Event, World)>)
    requires !u.actionEdit.on && u.wizard == NoWizard.(step := Period) && AllDigits(digits)
    requires |inputs| == |digits| + 2 && inputs[|digits|].0 == Return && inputs[|digits| + 1].0 == Return
    requires forall i | 0 <= i < |digits| :: inputs[i].0 == Character(digits[i], "")
    ensures Run(c, u, inputs) == Confirmed(c, u.(wizard := u.wizard.(interval := digits)))
  {
    RunAt(c, u, |digits|, inputs);
    DigitsAreTyped(c, u, digits, inputs[..|digits|]);
    assert "" + digits == digits;
    ReturnTwice(c, u.(wizard := u.wizard.(interval := digits)), inputs[|digits|..]);
  }

  /** Typing an interval creates exactly that periodic action, if and only if it is positive and fits 64 bits. */
  lemma TypedPeriodIsCreated(c: Config, u: Ui, digits: string, inputs: seq<(Event, World)>)
    requires Inv(c, u) && NoMode(u) && u.nav.level == 3 && AllDigits(digits)
    requires Keys(inputs) == WizardKeys(digits)
    ensures var v := u.(nav := u.nav.(sig := SignalCount(c, u.nav) + 1));
            var created := [CreatePeriodic(SelectedIface(c, u.nav), u.nav.msg, DigitsValue(digits))];
            Run(c, u, inputs) ==
              if 0 < DigitsValue(digits) < 0x8000_0000_0000_0000 then v.(out := u.out + created)
              else v.(wizard := NoWizard.(step := Period, interval := digits))
  {
    KeysAt(inputs, WizardKeys(digits));
    RunFirst(c, u, inputs);
    var v := OpenWizard(u.(nav := u.nav.(sig := SignalCount(c, u.nav) + 1)));
    assert OnEvent(c, u, inputs[0].0, inputs[0].1).ui == v;
    DigitsThenReturns(c, v, digits, inputs[1..]);
  }
}
