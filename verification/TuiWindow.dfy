/** The event handler of the terminal interface as it runs: fields updated branch by branch. */
module TuiWindow {
  import opened Basics
  import opened TuiEvents
  import P = TuiProperties

  class TuiDataFrameSet {
    const c: Config
    var nav: Nav
    var edit: Edit
    var actionEdit: Edit
    var wizard: Wizard
    var search: Edit
    /** The calls made on the action handler, the send models, the playback controller and the screen. */
    var out: seq<Command>

    function State(): Ui
      reads this
    {
      Ui(nav, edit, actionEdit, wizard, search, out)
    }

    constructor (config: Config)
      ensures c == config && State() == Initial && P.Inv(c, State())
    {
      c := config;
      nav, edit, actionEdit := Initial.nav, Closed, Closed;
      wizard, search, out := NoWizard, Closed, [];
    }

    method Issue(command: Command)
      modifies this`out
      ensures out == old(out) + [command]
    {
      out := out + [command];
    }

    // ----- Creating actions -----

    method CreateSingleAction()
      modifies this`out
      ensures State() == WithSingle(c, old(State()))
    {
      if Messages(c, nav) != [] {
        Issue(CreateSingle(SelectedIface(c, nav), MsgIndex(c, nav)));
      }
    }

    method CreatePeriodicAction()
      modifies this`out
      ensures State() == WithPeriodic(c, old(State()))
    {
      if Messages(c, nav) != [] {
        Issue(CreatePeriodic(SelectedIface(c, nav), MsgIndex(c, nav), wizard.intervalMs));
      }
    }

    method CreateSinAction(amplitude: real, periodMs: nat, offset: real)
      modifies this`out
      ensures State() == WithSin(c, old(State()), amplitude, periodMs, offset)
    {
      if Messages(c, nav) == [] { return; }
      var count := SignalCount(c, nav);
      if count == 0 { return; }
      Issue(CreateSin(SelectedIface(c, nav), MsgIndex(c, nav), Clamp(nav.sig, count), wizard.intervalMs,
                      amplitude, periodMs, offset));
    }

    // ----- Modes -----

    /** The first message with the id of the action, or the number of messages. */
    method IndexOfMessage(messages: seq<Message>, id: nat) returns (m: nat)
      ensures m == FindMessage(messages, id)
    {
      m := 0;
      while m < |messages| && messages[m].id != id
        invariant m <= |messages|
        invariant FindMessage(messages, id) == m + FindMessage(messages[m..], id)
      {
        assert messages[m..][1..] == messages[m + 1..];
        m := m + 1;
      }
    }

    method CommitActionEdit(w: World)
      modifies this`out
      ensures out == old(out) + ActionCommit(c, old(State()), w)
      ensures State() == old(State()).(out := out)
    {
      if nav.action < |w.actions| && actionEdit.buf != "" {
        var row, value := w.actions[nav.action], c.stod(actionEdit.buf);
        if row.sin {
          if value.Some? { Issue(UpdateSinParam(nav.action, nav.actionSig, value.value)); }
        } else if row.iface in c.models {
          var messages := c.models[row.iface];
          var m := IndexOfMessage(messages, row.msgId);
          if m < |messages| && messages[m].signals > 0 && value.Some? {
            Issue(SetValue(row.iface, m, Clamp(nav.actionSig, messages[m].signals), value.value));
            Issue(UpdatePayload(nav.action, row.iface, m));
          }
        }
      }
    }

    method HandleActionEdit(e: Event, w: World) returns (handled: bool)
      requires actionEdit.on
      modifies this`out, this`actionEdit
      ensures OnActionEdit(c, old(State()), e, w) == Outcome(State(), handled)
    {
      handled := true;
      if e.Return? || e.Left? {
        CommitActionEdit(w);
        actionEdit := Closed;
      } else if e.Escape? {
        actionEdit := Closed;
      } else if e.Backspace? {
        if actionEdit.buf != "" { actionEdit := Edit(true, actionEdit.buf[..|actionEdit.buf| - 1]); }
      } else if e.Character? {
        if NumberChar(e.c) { actionEdit := Edit(true, actionEdit.buf + [e.c]); }
      } else {
        handled := false;
      }
    }

    method HandlePeriod(e: Event) returns (handled: bool)
      requires wizard.step.Period?
      modifies this`wizard
      ensures OnPeriod(old(State()), e) == Outcome(State(), handled)
    {
      handled := true;
      if e.Return? || e.Right? {
        if wizard.interval != "" {
          var ms := Stol(wizard.interval);
          if ms.Some? {
            wizard := wizard.(intervalMs := ms.value);
            if wizard.intervalMs > 0 { wizard := wizard.(step := TypeSelect); }
          }
        }
      } else if e.Backspace? {
        if wizard.interval != "" { wizard := wizard.(interval := wizard.interval[..|wizard.interval| - 1]); }
      } else if e.Character? && IsDigit(e.c) {
        wizard := wizard.(interval := wizard.interval + [e.c]);
      } else {
        handled := false;
      }
    }

    method HandleTypeSelect(e: Event) returns (handled: bool)
      modifies this`wizard, this`out
      ensures OnTypeSelect(c, old(State()), e) == Outcome(State(), handled)
    {
      handled := true;
      if e.Left? || e.Right? {
        wizard := wizard.(sine := !wizard.sine);
      } else if e.Return? {
        if !wizard.sine {
          CreatePeriodicAction();
          wizard := NoWizard;
        } else {
          wizard := wizard.(step := SinAmplitude);
        }
      } else if e.Up? {
        wizard := wizard.(step := Period);
      } else {
        handled := false;
      }
    }

    method HandleNumber(buf: string, decimal: bool, e: Event) returns (after: string, handled: bool)
      ensures (after, handled) == NumberInput(buf, decimal, e)
    {
      after, handled := buf, true;
      if e.Backspace? {
        if buf != "" { after := buf[..|buf| - 1]; }
      } else if e.Character? {
        if IsDigit(e.c) || (decimal && e.c == '.' && '.' !in buf) || (decimal && e.c == '-' && buf == "") {
          after := buf + [e.c];
        }
      } else {
        handled := false;
      }
    }

    method HandleField(e: Event) returns (handled: bool)
      requires wizard.step.SinAmplitude? || wizard.step.SinPeriod? || wizard.step.SinOffset?
      modifies this`wizard
      ensures OnField(old(State()), e) == Outcome(State(), handled)
    {
      handled := true;
      if e.Return? || e.Down? {
        wizard := wizard.(step := match wizard.step case SinAmplitude => SinPeriod case SinPeriod => SinOffset case _ => SinReady);
      } else if e.Up? {
        wizard := wizard.(step := match wizard.step case SinAmplitude => TypeSelect case SinPeriod => SinAmplitude case _ => SinPeriod);
      } else {
        var buf;
        if wizard.step.SinAmplitude? {
          buf, handled := HandleNumber(wizard.amplitude, true, e);
          wizard := wizard.(amplitude := buf);
        } else if wizard.step.SinPeriod? {
          buf, handled := HandleNumber(wizard.period, false, e);
          wizard := wizard.(period := buf);
        } else {
          buf, handled := HandleNumber(wizard.offset, true, e);
          wizard := wizard.(offset := buf);
        }
      }
    }

    method HandleSinReady(e: Event) returns (handled: bool)
      modifies this`wizard, this`out
      ensures OnSinReady(c, old(State()), e) == Outcome(State(), handled)
    {
      handled := true;
      if e.Return? || e.Right? {
        var amplitude := if wizard.amplitude == "" then Some(0.0) else c.stod(wizard.amplitude);
        var period := if wizard.period == "" then Some(1000) else Stol(wizard.period);
        var offset := if wizard.offset == "" then Some(0.0) else c.stod(wizard.offset);
        if amplitude.Some? && period.Some? && offset.Some? {
          if period.value > 0 { CreateSinAction(amplitude.value, period.value, offset.value); }
        }
        wizard := NoWizard;
      } else if e.Up? {
        wizard := wizard.(step := SinOffset);
      } else {
        handled := false;
      }
    }

    method HandleWizard(e: Event) returns (handled: bool)
      requires !wizard.step.NoStep?
      modifies this`wizard, this`out
      ensures OnWizard(c, old(State()), e) == Outcome(State(), handled)
    {
      if e.Escape? {
        wizard, handled := NoWizard, true;
      } else if wizard.step.Period? {
        handled := HandlePeriod(e);
      } else if wizard.step.TypeSelect? {
        handled := HandleTypeSelect(e);
      } else if wizard.step.SinReady? {
        handled := HandleSinReady(e);
      } else {
        handled := HandleField(e);
      }
    }

    method HandleSendEdit(e: Event) returns (handled: bool)
      requires edit.on
      modifies this`out, this`edit
      ensures OnSendEdit(c, old(State()), e) == Outcome(State(), handled)
    {
      handled := true;
      if e.Return? || e.Left? {
        if Messages(c, nav) != [] && edit.buf != "" && c.stod(edit.buf).Some? && SignalCount(c, nav) > 0 {
          Issue(SetValue(SelectedIface(c, nav), MsgIndex(c, nav), Clamp(nav.sig, SignalCount(c, nav)), c.stod(edit.buf).value));
        }
        edit := Closed;
      } else if e.Escape? {
        edit := Closed;
      } else if e.Backspace? {
        if edit.buf != "" { edit := Edit(true, edit.buf[..|edit.buf| - 1]); }
      } else if e.Character? {
        if NumberChar(e.c) { edit := Edit(true, edit.buf + [e.c]); }
      } else {
        handled := false;
      }
    }

    method HandleSearch(e: Event) returns (handled: bool)
      requires search.on
      modifies this`search
      ensures OnSearch(old(State()), e) == Outcome(State(), handled)
    {
      handled := true;
      if e.Escape? {
        search := Closed;
      } else if e.Backspace? {
        if search.buf != "" { search := Edit(true, search.buf[..|search.buf| - 1]); }
      } else if e.Character? {
        search := Edit(true, search.buf + [e.c] + e.tail);
      } else {
        handled := false;
      }
    }

    // ----- Shortcuts -----

    method HandleShortcut(e: Event) returns (handled: bool)
      modifies this`nav, this`search, this`out
      ensures OnShortcut(c, old(State()), e) == if handled then Some(Outcome(State(), true)) else None
      ensures !handled ==> State() == old(State())
    {
      handled := true;
      if IsKey(e, 'q') || e.Escape? {
        Issue(Quit);
      } else if IsKey(e, 't') {
        nav := nav.(tab := 0, level := 1);
      } else if IsKey(e, 's') {
        nav := nav.(tab := 1, level := 1);
      } else if IsKey(e, 'a') {
        nav := nav.(tab := 2, level := 1);
      } else if IsKey(e, 'm') && c.modelTab {
        nav := nav.(tab := 3, level := 1);
      } else if IsKey(e, 'p') && c.playback {
        nav := nav.(tab := PlaybackTab(c), level := 1);
      } else if IsKey(e, 'f') && nav.tab == 0 {
        search := search.(on := true);
      } else {
        handled := false;
      }
    }

    // ----- Navigation -----

    method HandleSignals(e: Event, w: World) returns (handled: bool)
      modifies this`nav, this`edit, this`wizard, this`out
      ensures OnSignals(c, old(State()), e, w) == Outcome(State(), handled)
    {
      handled := true;
      var present := Messages(c, nav) != [];
      if e.Left? {
        nav := nav.(level := 2);
      } else if e.Right? || e.Return? {
        if present {
          var count := SignalCount(c, nav);
          if nav.sig < count {
            edit := Edit(true, w.text);
          } else if nav.sig == count {
            CreateSingleAction();
          } else {
            wizard := wizard.(step := Period, interval := "");
          }
        }
      } else if e.Up? {
        if nav.sig > 0 { nav := nav.(sig := nav.sig - 1); }
      } else if e.Down? {
        var last := 1;
        if present { last := SignalCount(c, nav) + 1; }
        if nav.sig < last { nav := nav.(sig := nav.sig + 1); }
      } else if IsKey(e, '1') {
        CreateSingleAction();
      } else if IsKey(e, '2') {
        if present { nav := nav.(sig := SignalCount(c, nav) + 1); }
        wizard := wizard.(step := Period, interval := "");
      } else {
        handled := false;
      }
    }

    method HandlePlaybackFilter(e: Event, w: World) returns (handled: bool)
      modifies this`nav, this`out
      ensures OnPlaybackFilter(old(State()), e, w) == Outcome(State(), handled)
    {
      handled := true;
      if e.Left? {
        nav := nav.(level := 1);
      } else if e.Up? {
        if nav.playerMsg > 0 { nav := nav.(playerMsg := nav.playerMsg - 1); }
      } else if e.Down? {
        if nav.player < |w.playback| && nav.playerMsg < w.playback[nav.player] {
          nav := nav.(playerMsg := nav.playerMsg + 1);
        }
      } else if e.Return? {
        if nav.player < |w.playback| { Issue(ToggleMessage(nav.player, nav.playerMsg)); }
      } else {
        handled := false;
      }
    }

    /** The search for a message with that id and a signal to edit. */
    method CanEdit(row: ActionRow) returns (editable: bool)
      ensures editable == Editable(c, row)
    {
      if row.sin { return true; }
      if row.iface !in c.models { return false; }
      var messages := c.models[row.iface];
      var i := 0;
      while i < |messages|
        invariant i <= |messages|
        invariant forall k | 0 <= k < i :: !(messages[k].id == row.msgId && messages[k].signals > 0)
      {
        if messages[i].id == row.msgId && messages[i].signals > 0 { return true; }
        i := i + 1;
      }
      return false;
    }

    method LastSignal(row: ActionRow) returns (last: int)
      ensures last == LastActionSig(c, row)
    {
      last := -1;
      if row.sin {
        last := 2;
      } else if row.iface in c.models {
        var m := IndexOfMessage(c.models[row.iface], row.msgId);
        if m < |c.models[row.iface]| { last := c.models[row.iface][m].signals - 1; }
      }
    }

    method HandleActionView(e: Event, w: World) returns (handled: bool)
      modifies this`nav, this`actionEdit
      ensures OnActionView(c, old(State()), e, w) == Outcome(State(), handled)
    {
      handled := true;
      if e.Left? {
        nav := nav.(level := 1);
      } else if e.Right? || e.Return? {
        if nav.action < |w.actions| {
          var editable := CanEdit(w.actions[nav.action]);
          if editable { actionEdit := Edit(true, w.text); }
        }
      } else if e.Up? {
        if nav.actionSig > 0 { nav := nav.(actionSig := nav.actionSig - 1); }
      } else if e.Down? {
        if nav.action < |w.actions| {
          var last := LastSignal(w.actions[nav.action]);
          if nav.actionSig < last { nav := nav.(actionSig := nav.actionSig + 1); }
        }
      } else {
        handled := false;
      }
    }

    method HandleMessages(e: Event) returns (handled: bool)
      modifies this`nav
      ensures OnMessages(c, old(State()), e) == Outcome(State(), handled)
    {
      handled := true;
      if e.Left? {
        nav := nav.(level := 1);
      } else if e.Right? || e.Return? {
        if Messages(c, nav) != [] { nav := nav.(sig := 0, level := 3); }
      } else if e.Up? {
        if nav.msg > 0 { nav := nav.(msg := nav.msg - 1); }
      } else if e.Down? {
        if nav.msg + 1 < |Messages(c, nav)| { nav := nav.(msg := nav.msg + 1); }
      } else {
        handled := false;
      }
    }

    method HandlePlaybackList(e: Event, w: World) returns (handled: bool)
      modifies this`nav, this`out
      ensures OnPlaybackList(old(State()), e, w) == Outcome(State(), handled)
    {
      handled := true;
      if e.Up? {
        if nav.player > 0 { nav := nav.(player := nav.player - 1); } else { nav := nav.(level := 0); }
      } else if e.Down? {
        if nav.player + 1 < |w.playback| { nav := nav.(player := nav.player + 1); }
      } else if e.Return? {
        if nav.player < |w.playback| { Issue(ToggleInterface(nav.player)); }
      } else if e.Right? {
        if nav.player < |w.playback| { nav := nav.(playerMsg := 0, level := 2); }
      } else {
        handled := false;
      }
    }

    method HandleActionList(e: Event, w: World) returns (handled: bool)
      modifies this`nav, this`out
      ensures OnActionList(old(State()), e, w) == Outcome(State(), handled)
    {
      handled := true;
      if e.Up? {
        if nav.action > 0 { nav := nav.(action := nav.action - 1); } else { nav := nav.(level := 0); }
      } else if e.Down? {
        if nav.action + 1 < |w.actions| { nav := nav.(action := nav.action + 1); }
      } else if e.Right? || e.Return? {
        if nav.action < |w.actions| { nav := nav.(actionSig := 0, level := 2); }
      } else if IsKey(e, ' ') {
        if nav.action < |w.actions| { Issue(TogglePause(nav.action)); }
      } else if e.Delete? || e.Backspace? {
        if nav.action < |w.actions| {
          Issue(RemoveAction(nav.action));
          if nav.action > 0 { nav := nav.(action := nav.action - 1); }
        }
      } else {
        handled := false;
      }
    }

    method HandleSubTabs(e: Event, w: World) returns (handled: bool)
      modifies this`nav
      ensures OnSubTabs(c, old(State()), e, w) == Outcome(State(), handled)
    {
      handled := true;
      var traces, ifaces := |w.traces|, |c.interfaces|;
      if e.Up? {
        if nav.tab == 0 && nav.trace > 0 { nav := nav.(trace := nav.trace - 1); } else { nav := nav.(level := 0); }
      } else if e.Down? && nav.tab == 0 {
        if traces > 0 {
          var count := w.traces[Clamp(nav.subTrace, traces)];
          if nav.trace + 1 < count { nav := nav.(trace := nav.trace + 1); }
        }
      } else if e.Down? && nav.tab == 1 {
        if Messages(c, nav) != [] { nav := nav.(msg := 0, level := 2); }
      } else if e.Right? {
        if nav.tab == 0 {
          if traces > 0 { nav := nav.(subTrace := (nav.subTrace + 1) % traces, trace := 0); }
        } else if ifaces > 0 {
          nav := nav.(subSend := (nav.subSend + 1) % ifaces);
        }
      } else if e.Left? {
        if nav.tab == 0 {
          if traces > 0 { nav := nav.(subTrace := (nav.subTrace + traces - 1) % traces, trace := 0); }
        } else if ifaces > 0 {
          nav := nav.(subSend := (nav.subSend + ifaces - 1) % ifaces);
        }
      } else {
        handled := false;
      }
    }

    method HandleMainTabs(e: Event) returns (handled: bool)
      modifies this`nav
      ensures OnMainTabs(c, old(State()), e) == Outcome(State(), handled)
    {
      handled := true;
      if e.Down? {
        nav := nav.(level := 1);
      } else if e.Right? {
        nav := nav.(tab := (nav.tab + 1) % TabCount(c));
      } else if e.Left? {
        nav := nav.(tab := (nav.tab + TabCount(c) - 1) % TabCount(c));
      } else {
        handled := false;
      }
    }

    method HandleNavigation(e: Event, w: World) returns (handled: bool)
      modifies this`nav, this`edit, this`actionEdit, this`wizard, this`out
      ensures OnNavigation(c, old(State()), e, w) == Outcome(State(), handled)
    {
      var onPlayback := nav.tab == PlaybackTab(c) && c.playback;
      if nav.level == 3 {
        handled := HandleSignals(e, w);
      } else if nav.level == 2 && onPlayback {
        handled := HandlePlaybackFilter(e, w);
      } else if nav.level == 2 && nav.tab == 2 {
        handled := HandleActionView(e, w);
      } else if nav.level == 2 {
        handled := HandleMessages(e);
      } else if nav.level == 1 && onPlayback {
        handled := HandlePlaybackList(e, w);
      } else if nav.level == 1 && nav.tab == 2 {
        handled := HandleActionList(e, w);
      } else if nav.level == 1 {
        handled := HandleSubTabs(e, w);
      } else {
        handled := HandleMainTabs(e);
      }
    }

    method CatchEvent(e: Event, w: World) returns (handled: bool)
      modifies this
      ensures OnEvent(c, old(State()), e, w) == Outcome(State(), handled)
      ensures P.Inv(c, old(State())) ==> P.Inv(c, State())
    {
      if P.Inv(c, State()) {
        P.EventKeeps(c, State(), e, w);
      }
      if actionEdit.on {
        handled := HandleActionEdit(e, w);
      } else if !wizard.step.NoStep? {
        handled := HandleWizard(e);
      } else if edit.on {
        handled := HandleSendEdit(e);
      } else if search.on {
        handled := HandleSearch(e);
      } else {
        handled := HandleShortcut(e);
        if !handled { handled := HandleNavigation(e, w); }
      }
    }
  }
}
