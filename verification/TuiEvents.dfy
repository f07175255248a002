/**
  The event handler of the terminal interface as a function: what one event
  does to the modes, cursors and buffers, and which commands it issues.
 */
module TuiEvents {
  import opened Basics

  datatype Event = Return | Escape | Backspace | Delete | Up | Down | Left | Right | Character(c: char, tail: string) | Custom

  /** The shape of a DBC message; its structure never changes. */
  datatype Message = Message(id: nat, signals: nat)

  /** What is fixed when the interface is built. `stod` is None where the conversion throws. */
  datatype Config = Config(interfaces: seq<string>, models: map<string, seq<Message>>, modelTab: bool, playback: bool,
                           stod: string -> Option<real>)

  datatype ActionRow = ActionRow(sin: bool, iface: string, msgId: nat)

  /**
    What the handler reads from other threads at one event: the action
    snapshot, the number of messages of each playback interface, the number of
    frames of each trace, and the formatted value for the edit buffer.
   */
  datatype World = World(actions: seq<ActionRow>, playback: seq<nat>, traces: seq<nat>, text: string)

  datatype Nav = Nav(level: nat, tab: nat, subTrace: nat, subSend: nat, msg: nat, sig: nat, action: nat, actionSig: nat,
                     player: nat, playerMsg: nat, trace: nat)

  datatype Edit = Edit(on: bool, buf: string)

  datatype WizardStep = NoStep | Period | TypeSelect | SinAmplitude | SinPeriod | SinOffset | SinReady

  datatype Wizard = Wizard(step: WizardStep, interval: string, intervalMs: nat, sine: bool,
                           amplitude: string, period: string, offset: string)

  datatype Command =
    | CreateSingle(iface: string, msg: nat)
    | CreatePeriodic(iface: string, msg: nat, periodMs: nat)
    | CreateSin(iface: string, msg: nat, sig: nat, intervalMs: nat, amplitude: real, periodMs: nat, offset: real)
    | SetValue(iface: string, msg: nat, sig: nat, value: real)
    | UpdateSinParam(action: nat, param: nat, value: real)
    | UpdatePayload(action: nat, iface: string, msg: nat)
    | TogglePause(action: nat)
    | RemoveAction(action: nat)
    | ToggleInterface(player: nat)
    | ToggleMessage(player: nat, idx: nat)
    | Quit

  /** The interface, with the commands issued so far; `edit` is in the Send tab, `actionEdit` in the Actions tab. */
  datatype Ui = Ui(nav: Nav, edit: Edit, actionEdit: Edit, wizard: Wizard, search: Edit, out: seq<Command>)

  datatype Outcome = Outcome(ui: Ui, handled: bool)

  const Closed := Edit(false, "")
  const NoWizard := Wizard(NoStep, "", 0, false, "", "", "")
  const Initial := Ui(Nav(0, 0, 0, 0, 0, 0, 0, 0, 0, 0, 0), Closed, Closed, NoWizard, Closed, [])

  // ----- Lookups -----

  function SelectedIface(c: Config, n: Nav): string {
    if c.interfaces == [] then "" else c.interfaces[if n.subSend < |c.interfaces| then n.subSend else |c.interfaces| - 1]
  }

  /** The messages of the selected interface; empty where there is no model. */
  function Messages(c: Config, n: Nav): seq<Message> {
    if SelectedIface(c, n) in c.models then c.models[SelectedIface(c, n)] else []
  }

  function Clamp(i: nat, count: nat): nat
    requires count > 0
  {
    if i < count then i else count - 1
  }

  function MsgIndex(c: Config, n: Nav): nat
    requires Messages(c, n) != []
  {
    Clamp(n.msg, |Messages(c, n)|)
  }

  function SignalCount(c: Config, n: Nav): nat
    requires Messages(c, n) != []
  {
    Messages(c, n)[MsgIndex(c, n)].signals
  }

  /** The position of the first message with that id, or the number of messages. */
  function FindMessage(messages: seq<Message>, id: nat): (r: nat)
    ensures r <= |messages|
    ensures r < |messages| ==> messages[r].id == id
    ensures forall i | 0 <= i < r :: messages[i].id != id
  {
    if messages == [] || messages[0].id == id then 0 else 1 + FindMessage(messages[1..], id)
  }

  function PlaybackTab(c: Config): nat {
    if c.modelTab then 4 else 3
  }

  function TabCount(c: Config): nat {
    3 + (if c.modelTab then 1 else 0) + (if c.playback then 1 else 0)
  }

  predicate IsDigit(ch: char) {
    '0' <= ch <= '9'
  }

  predicate AllDigits(s: string) {
    forall i | 0 <= i < |s| :: IsDigit(s[i])
  }

  function DigitsValue(s: string): nat {
    if s == "" then 0
    else 10 * DigitsValue(s[..|s| - 1]) + (if IsDigit(s[|s| - 1]) then s[|s| - 1] as nat - '0' as nat else 0)
  }

  /** Conversion of a digit string to a 64-bit signed integer; None where it throws. */
  function Stol(s: string): Option<nat> {
    if s != "" && AllDigits(s) && DigitsValue(s) < 0x8000_0000_0000_0000 then Some(DigitsValue(s)) else None
  }

  function DropLast(s: string): string {
    if s == "" then "" else s[..|s| - 1]
  }

  predicate NumberChar(ch: char) {
    IsDigit(ch) || ch == '.' || ch == '-'
  }

  // ----- Creating actions -----

  function WithSingle(c: Config, u: Ui): Ui {
    if Messages(c, u.nav) == [] then u
    else u.(out := u.out + [CreateSingle(SelectedIface(c, u.nav), MsgIndex(c, u.nav))])
  }

  function WithPeriodic(c: Config, u: Ui): Ui {
    if Messages(c, u.nav) == [] then u
    else u.(out := u.out + [CreatePeriodic(SelectedIface(c, u.nav), MsgIndex(c, u.nav), u.wizard.intervalMs)])
  }

  function WithSin(c: Config, u: Ui, amplitude: real, periodMs: nat, offset: real): Ui {
    if Messages(c, u.nav) == [] || SignalCount(c, u.nav) == 0 then u
    else u.(out := u.out + [CreateSin(SelectedIface(c, u.nav), MsgIndex(c, u.nav), Clamp(u.nav.sig, SignalCount(c, u.nav)),
                                      u.wizard.intervalMs, amplitude, periodMs, offset)])
  }

  // ----- Editing in the Actions tab -----

  function ActionCommit(c: Config, u: Ui, w: World): seq<Command> {
    var value := c.stod(u.actionEdit.buf);
    if u.nav.action >= |w.actions| || u.actionEdit.buf == "" || value.None? then []
    else
      var row := w.actions[u.nav.action];
      if row.sin then [UpdateSinParam(u.nav.action, u.nav.actionSig, value.value)]
      else if row.iface !in c.models then []
      else
        var messages := c.models[row.iface];
        var m := FindMessage(messages, row.msgId);
        if m == |messages| || messages[m].signals == 0 then []
        else [SetValue(row.iface, m, Clamp(u.nav.actionSig, messages[m].signals), value.value),
              UpdatePayload(u.nav.action, row.iface, m)]
  }

  function OnActionEdit(c: Config, u: Ui, e: Event, w: World): Outcome {
    match e
    case Return => Outcome(u.(actionEdit := Closed, out := u.out + ActionCommit(c, u, w)), true)
    case Left => Outcome(u.(actionEdit := Closed, out := u.out + ActionCommit(c, u, w)), true)
    case Escape => Outcome(u.(actionEdit := Closed), true)
    case Backspace => Outcome(u.(actionEdit := Edit(true, DropLast(u.actionEdit.buf))), true)
    case Character(ch, _) =>
      Outcome(if NumberChar(ch) then u.(actionEdit := Edit(true, u.actionEdit.buf + [ch])) else u, true)
    case _ => Outcome(u, false)
  }

  // ----- The periodic and sine wizard -----

  /** The numeric fields: digits, and where decimals are allowed one point and a leading minus. */
  function NumberInput(buf: string, decimal: bool, e: Event): (string, bool) {
    match e
    case Backspace => (DropLast(buf), true)
    case Character(ch, _) =>
      if IsDigit(ch) || (decimal && ch == '.' && '.' !in buf) || (decimal && ch == '-' && buf == "")
      then (buf + [ch], true) else (buf, true)
    case _ => (buf, false)
  }

  function OnPeriod(u: Ui, e: Event): Outcome {
    var z := u.wizard;
    if e.Return? || e.Right? then
      var ms := Stol(z.interval);
      if ms.None? then Outcome(u, true)
      else Outcome(u.(wizard := z.(intervalMs := ms.value, step := if ms.value > 0 then TypeSelect else Period)), true)
    else if e.Backspace? then Outcome(u.(wizard := z.(interval := DropLast(z.interval))), true)
    else if e.Character? && IsDigit(e.c) then Outcome(u.(wizard := z.(interval := z.interval + [e.c])), true)
    else Outcome(u, false)
  }

  function OnTypeSelect(c: Config, u: Ui, e: Event): Outcome {
    match e
    case Left => Outcome(u.(wizard := u.wizard.(sine := !u.wizard.sine)), true)
    case Right => Outcome(u.(wizard := u.wizard.(sine := !u.wizard.sine)), true)
    case Return =>
      if !u.wizard.sine then Outcome(WithPeriodic(c, u).(wizard := NoWizard), true)
      else Outcome(u.(wizard := u.wizard.(step := SinAmplitude)), true)
    case Up => Outcome(u.(wizard := u.wizard.(step := Period)), true)
    case _ => Outcome(u, false)
  }

  function OnField(u: Ui, e: Event): Outcome {
    var z := u.wizard;
    var amplitude, offset := z.step.SinAmplitude?, z.step.SinOffset?;
    if e.Return? || e.Down? then
      Outcome(u.(wizard := z.(step := if amplitude then SinPeriod else if offset then SinReady else SinOffset)), true)
    else if e.Up? then
      Outcome(u.(wizard := z.(step := if amplitude then TypeSelect else if offset then SinPeriod else SinAmplitude)), true)
    else
      var (buf, handled) := NumberInput(if amplitude then z.amplitude else if offset then z.offset else z.period,
                                        amplitude || offset, e);
      Outcome(u.(wizard := if amplitude then z.(amplitude := buf) else if offset then z.(offset := buf)
                           else z.(period := buf)), handled)
  }

  function SinParameters(c: Config, z: Wizard): Option<(real, nat, real)> {
    var amplitude := if z.amplitude == "" then Some(0.0) else c.stod(z.amplitude);
    var period := if z.period == "" then Some(1000) else Stol(z.period);
    var offset := if z.offset == "" then Some(0.0) else c.stod(z.offset);
    if amplitude.Some? && period.Some? && offset.Some? && period.value > 0
    then Some((amplitude.value, period.value, offset.value)) else None
  }

  function OnSinReady(c: Config, u: Ui, e: Event): Outcome {
    if e.Return? || e.Right? then
      var p := SinParameters(c, u.wizard);
      var v := if p.Some? then WithSin(c, u, p.value.0, p.value.1, p.value.2) else u;
      Outcome(v.(wizard := NoWizard), true)
    else if e.Up? then Outcome(u.(wizard := u.wizard.(step := SinOffset)), true)
    else Outcome(u, false)
  }

  function OnWizard(c: Config, u: Ui, e: Event): Outcome {
    if e.Escape? then Outcome(u.(wizard := NoWizard), true)
    else match u.wizard.step
      case Period => OnPeriod(u, e)
      case TypeSelect => OnTypeSelect(c, u, e)
      case SinReady => OnSinReady(c, u, e)
      case NoStep => Outcome(u, false)
      case _ => OnField(u, e)
  }

  // ----- Editing in the Send tab, and searching -----

  function SendCommit(c: Config, u: Ui): seq<Command> {
    var value := c.stod(u.edit.buf);
    if Messages(c, u.nav) == [] || u.edit.buf == "" || value.None? || SignalCount(c, u.nav) == 0 then []
    else [SetValue(SelectedIface(c, u.nav), MsgIndex(c, u.nav), Clamp(u.nav.sig, SignalCount(c, u.nav)), value.value)]
  }

  function OnSendEdit(c: Config, u: Ui, e: Event): Outcome {
    match e
    case Return => Outcome(u.(edit := Closed, out := u.out + SendCommit(c, u)), true)
    case Left => Outcome(u.(edit := Closed, out := u.out + SendCommit(c, u)), true)
    case Escape => Outcome(u.(edit := Closed), true)
    case Backspace => Outcome(u.(edit := Edit(true, DropLast(u.edit.buf))), true)
    case Character(ch, _) => Outcome(if NumberChar(ch) then u.(edit := Edit(true, u.edit.buf + [ch])) else u, true)
    case _ => Outcome(u, false)
  }

  function OnSearch(u: Ui, e: Event): Outcome {
    match e
    case Escape => Outcome(u.(search := Closed), true)
    case Backspace => Outcome(u.(search := Edit(true, DropLast(u.search.buf))), true)
    case Character(ch, tail) => Outcome(u.(search := Edit(true, u.search.buf + [ch] + tail)), true)
    case _ => Outcome(u, false)
  }

  // ----- Shortcuts -----

  predicate IsKey(e: Event, ch: char) {
    e == Character(ch, "")
  }

  function Jump(u: Ui, tab: nat): Outcome {
    Outcome(u.(nav := u.nav.(tab := tab, level := 1)), true)
  }

  function OnShortcut(c: Config, u: Ui, e: Event): Option<Outcome> {
    if IsKey(e, 'q') || e.Escape? then Some(Outcome(u.(out := u.out + [Quit]), true))
    else if IsKey(e, 't') then Some(Jump(u, 0))
    else if IsKey(e, 's') then Some(Jump(u, 1))
    else if IsKey(e, 'a') then Some(Jump(u, 2))
    else if IsKey(e, 'm') && c.modelTab then Some(Jump(u, 3))
    else if IsKey(e, 'p') && c.playback then Some(Jump(u, PlaybackTab(c)))
    else if IsKey(e, 'f') && u.nav.tab == 0 then Some(Outcome(u.(search := u.search.(on := true)), true))
    else None
  }

  // ----- Level 3: signals of a message -----

  function OpenWizard(u: Ui): Ui {
    u.(wizard := u.wizard.(step := Period, interval := ""))
  }

  function OnSignals(c: Config, u: Ui, e: Event, w: World): Outcome {
    var n := u.nav;
    var present := Messages(c, n) != [];
    if e.Left? then Outcome(u.(nav := n.(level := 2)), true)
    else if e.Right? || e.Return? then
      if !present then Outcome(u, true)
      else if n.sig < SignalCount(c, n) then Outcome(u.(edit := Edit(true, w.text)), true)
      else if n.sig == SignalCount(c, n) then Outcome(WithSingle(c, u), true)
      else Outcome(OpenWizard(u), true)
    else if e.Up? then Outcome(u.(nav := n.(sig := if n.sig > 0 then n.sig - 1 else 0)), true)
    else if e.Down? then
      var last := if present then SignalCount(c, n) + 1 else 1;
      Outcome(u.(nav := n.(sig := if n.sig < last then n.sig + 1 else n.sig)), true)
    else if IsKey(e, '1') then Outcome(WithSingle(c, u), true)
    else if IsKey(e, '2') then
      Outcome(OpenWizard(if present then u.(nav := n.(sig := SignalCount(c, n) + 1)) else u), true)
    else Outcome(u, false)
  }

  // ----- Level 2 -----

  function OnPlaybackFilter(u: Ui, e: Event, w: World): Outcome {
    var n := u.nav;
    match e
    case Left => Outcome(u.(nav := n.(level := 1)), true)
    case Up => Outcome(u.(nav := n.(playerMsg := if n.playerMsg > 0 then n.playerMsg - 1 else 0)), true)
    case Down =>
      if n.player < |w.playback| && n.playerMsg < w.playback[n.player]
      then Outcome(u.(nav := n.(playerMsg := n.playerMsg + 1)), true) else Outcome(u, true)
    case Return =>
      if n.player < |w.playback| then Outcome(u.(out := u.out + [ToggleMessage(n.player, n.playerMsg)]), true)
      else Outcome(u, true)
    case _ => Outcome(u, false)
  }

  /** Whether the selected action has a value that can be edited. */
  predicate Editable(c: Config, row: ActionRow) {
    row.sin || (row.iface in c.models &&
                exists i :: 0 <= i < |c.models[row.iface]| &&
                            c.models[row.iface][i].id == row.msgId && c.models[row.iface][i].signals > 0)
  }

  function LastActionSig(c: Config, row: ActionRow): int {
    if row.sin then 2
    else if row.iface !in c.models then -1
    else
      var m := FindMessage(c.models[row.iface], row.msgId);
      if m < |c.models[row.iface]| then c.models[row.iface][m].signals - 1 else -1
  }

  function OnActionView(c: Config, u: Ui, e: Event, w: World): Outcome {
    var n := u.nav;
    if e.Left? then Outcome(u.(nav := n.(level := 1)), true)
    else if e.Right? || e.Return? then
      if n.action < |w.actions| && Editable(c, w.actions[n.action])
      then Outcome(u.(actionEdit := Edit(true, w.text)), true) else Outcome(u, true)
    else if e.Up? then Outcome(u.(nav := n.(actionSig := if n.actionSig > 0 then n.actionSig - 1 else 0)), true)
    else if e.Down? then
      if n.action < |w.actions| && n.actionSig < LastActionSig(c, w.actions[n.action])
      then Outcome(u.(nav := n.(actionSig := n.actionSig + 1)), true) else Outcome(u, true)
    else Outcome(u, false)
  }

  function OnMessages(c: Config, u: Ui, e: Event): Outcome {
    var n := u.nav;
    if e.Left? then Outcome(u.(nav := n.(level := 1)), true)
    else if e.Right? || e.Return? then
      Outcome(if Messages(c, n) != [] then u.(nav := n.(sig := 0, level := 3)) else u, true)
    else if e.Up? then Outcome(u.(nav := n.(msg := if n.msg > 0 then n.msg - 1 else 0)), true)
    else if e.Down? then
      Outcome(if n.msg + 1 < |Messages(c, n)| then u.(nav := n.(msg := n.msg + 1)) else u, true)
    else Outcome(u, false)
  }

  // ----- Level 1 -----

  function OnPlaybackList(u: Ui, e: Event, w: World): Outcome {
    var n := u.nav;
    match e
    case Up => Outcome(u.(nav := if n.player > 0 then n.(player := n.player - 1) else n.(level := 0)), true)
    case Down => Outcome(if n.player + 1 < |w.playback| then u.(nav := n.(player := n.player + 1)) else u, true)
    case Return => Outcome(if n.player < |w.playback| then u.(out := u.out + [ToggleInterface(n.player)]) else u, true)
    case Right => Outcome(if n.player < |w.playback| then u.(nav := n.(playerMsg := 0, level := 2)) else u, true)
    case _ => Outcome(u, false)
  }

  function OnActionList(u: Ui, e: Event, w: World): Outcome {
    var n := u.nav;
    var present := n.action < |w.actions|;
    if e.Up? then Outcome(u.(nav := if n.action > 0 then n.(action := n.action - 1) else n.(level := 0)), true)
    else if e.Down? then Outcome(if n.action + 1 < |w.actions| then u.(nav := n.(action := n.action + 1)) else u, true)
    else if e.Right? || e.Return? then Outcome(if present then u.(nav := n.(actionSig := 0, level := 2)) else u, true)
    else if IsKey(e, ' ') then Outcome(if present then u.(out := u.out + [TogglePause(n.action)]) else u, true)
    else if e.Delete? || e.Backspace? then
      Outcome(if present then u.(out := u.out + [RemoveAction(n.action)],
                                 nav := n.(action := if n.action > 0 then n.action - 1 else 0)) else u, true)
    else Outcome(u, false)
  }

  function OnSubTabs(c: Config, u: Ui, e: Event, w: World): Outcome {
    var n := u.nav;
    var traces, ifaces := |w.traces|, |c.interfaces|;
    if e.Up? then
      Outcome(u.(nav := if n.tab == 0 && n.trace > 0 then n.(trace := n.trace - 1) else n.(level := 0)), true)
    else if e.Down? && n.tab == 0 then
      Outcome(if traces > 0 && n.trace + 1 < w.traces[Clamp(n.subTrace, traces)]
              then u.(nav := n.(trace := n.trace + 1)) else u, true)
    else if e.Down? && n.tab == 1 then
      Outcome(if Messages(c, n) != [] then u.(nav := n.(msg := 0, level := 2)) else u, true)
    else if e.Right? then
      if n.tab == 0 then Outcome(if traces > 0 then u.(nav := n.(subTrace := (n.subTrace + 1) % traces, trace := 0)) else u, true)
      else Outcome(if ifaces > 0 then u.(nav := n.(subSend := (n.subSend + 1) % ifaces)) else u, true)
    else if e.Left? then
      if n.tab == 0 then
        Outcome(if traces > 0 then u.(nav := n.(subTrace := (n.subTrace + traces - 1) % traces, trace := 0)) else u, true)
      else Outcome(if ifaces > 0 then u.(nav := n.(subSend := (n.subSend + ifaces - 1) % ifaces)) else u, true)
    else Outcome(u, false)
  }

  // ----- Level 0, and the whole handler -----

  function OnMainTabs(c: Config, u: Ui, e: Event): Outcome {
    var n := u.nav;
    match e
    case Down => Outcome(u.(nav := n.(level := 1)), true)
    case Right => Outcome(u.(nav := n.(tab := (n.tab + 1) % TabCount(c))), true)
    case Left => Outcome(u.(nav := n.(tab := (n.tab + TabCount(c) - 1) % TabCount(c))), true)
    case _ => Outcome(u, false)
  }

  function OnNavigation(c: Config, u: Ui, e: Event, w: World): Outcome {
    var onPlayback := u.nav.tab == PlaybackTab(c) && c.playback;
    if u.nav.level == 3 then OnSignals(c, u, e, w)
    else if u.nav.level == 2 && onPlayback then OnPlaybackFilter(u, e, w)
    else if u.nav.level == 2 && u.nav.tab == 2 then OnActionView(c, u, e, w)
    else if u.nav.level == 2 then OnMessages(c, u, e)
    else if u.nav.level == 1 && onPlayback then OnPlaybackList(u, e, w)
    else if u.nav.level == 1 && u.nav.tab == 2 then OnActionList(u, e, w)
    else if u.nav.level == 1 then OnSubTabs(c, u, e, w)
    else OnMainTabs(c, u, e)
  }

  function OnEvent(c: Config, u: Ui, e: Event, w: World): Outcome {
    if u.actionEdit.on then OnActionEdit(c, u, e, w)
    else if !u.wizard.step.NoStep? then OnWizard(c, u, e)
    else if u.edit.on then OnSendEdit(c, u, e)
    else if u.search.on then OnSearch(u, e)
    else if OnShortcut(c, u, e).Some? then OnShortcut(c, u, e).value
    else OnNavigation(c, u, e, w)
  }
}
