/** What a user can get done in the terminal interface by which keys, while the lists it shows stay as they are. */
module TuiScenarios {
  import opened Basics
  import opened TuiEvents
  import opened TuiProperties
  import Bits
  import G = Graphs

  // ----- Pressing keys -----

  /** What one key does, while the lists stay as they are. */
  function Key(c: Config, w: World): (Ui, Event) -> Ui {
    (u: Ui, e: Event) => OnEvent(c, u, e, w).ui
  }

  function PressBy(step: (Ui, Event) -> Ui, u: Ui, keys: seq<Event>): Ui
    decreases |keys|
  {
    if keys == [] then u else PressBy(step, step(u, keys[0]), keys[1..])
  }

  function Press(c: Config, u: Ui, keys: seq<Event>, w: World): Ui {
    PressBy(Key(c, w), u, keys)
  }

  lemma {:induction false} Joined(step: (Ui, Event) -> Ui, u: Ui, a: seq<Event>, b: seq<Event>)
    ensures PressBy(step, u, a + b) == PressBy(step, PressBy(step, u, a), b)
    decreases |a|
  {
    if a == [] {
      assert a + b == b;
    } else {
      assert (a + b)[1..] == a[1..] + b;
      Joined(step, step(u, a[0]), a[1..], b);
    }
  }

  lemma JustOne(step: (Ui, Event) -> Ui, u: Ui, e: Event)
    ensures PressBy(step, u, [e]) == step(u, e)
  {
    assert [e][1..] == [];
  }

  lemma PressThen(c: Config, u: Ui, a: seq<Event>, b: seq<Event>, w: World)
    ensures Press(c, u, a + b, w) == Press(c, Press(c, u, a, w), b, w)
  {
    Joined(Key(c, w), u, a, b);
  }

  lemma PressOne(c: Config, u: Ui, e: Event, w: World)
    ensures Press(c, u, [e], w) == OnEvent(c, u, e, w).ui
  {
    JustOne(Key(c, w), u, e);
  }

  /** Keys that lead from each state of a path to the next lead along the path. */
  lemma {:induction false} AlongBy(step: (Ui, Event) -> Ui, path: nat -> Ui, keys: seq<Event>)
    requires forall j: nat | j < |keys| :: step(path(j), keys[j]) == path(j + 1)
    ensures PressBy(step, path(0), keys) == path(|keys|)
    decreases |keys|
  {
    if keys != [] {
      var n := |keys| - 1;
      assert forall j: nat | j < n :: keys[..n][j] == keys[j];
      AlongBy(step, path, keys[..n]);
      assert keys == keys[..n] + [keys[n]];
      Joined(step, path(0), keys[..n], [keys[n]]);
      JustOne(step, path(n), keys[n]);
    }
  }

  lemma Along(c: Config, path: nat -> Ui, keys: seq<Event>, w: World)
    requires forall j: nat | j < |keys| :: OnEvent(c, path(j), keys[j], w).ui == path(j + 1)
    ensures Press(c, path(0), keys, w) == path(|keys|)
  {
    AlongBy(Key(c, w), path, keys);
  }

  function Chars(s: string): seq<Event> {
    seq(|s|, i requires 0 <= i < |s| => Character(s[i], ""))
  }

  /** The arrow keys from one row of a list to another. */
  function Moves(from: nat, row: nat): seq<Event> {
    if row >= from then Times(Down, row - from) else Times(Up, from - row)
  }

  /** The row after `j` of those keys. */
  function RowAt(from: nat, row: nat, j: nat): nat {
    if row >= from then from + j else if j <= from then from - j else 0
  }

  const Space := Character(' ', "")

  // ----- The Actions tab -----

  function AtAction(u: Ui, i: nat): Ui {
    u.(nav := u.nav.(tab := 2, level := 1, action := i))
  }

  lemma MoveToAction(c: Config, u: Ui, i: nat, w: World)
    requires NoMode(u) && u.nav.tab == 2 && u.nav.level == 1 && i < |w.actions|
    ensures Press(c, u, Moves(u.nav.action, i), w) == AtAction(u, i)
  {
    var from := u.nav.action;
    Along(c, (j: nat) => AtAction(u, RowAt(from, i, j)), Moves(from, i), w);
    assert AtAction(u, RowAt(from, i, 0)) == u;
  }

  lemma SelectAction(c: Config, u: Ui, i: nat, w: World)
    requires NoMode(u) && i < |w.actions|
    ensures Press(c, u, [Character('a', "")] + Moves(u.nav.action, i), w) == AtAction(u, i)
  {
    var v := AtAction(u, u.nav.action);
    PressThen(c, u, [Character('a', "")], Moves(u.nav.action, i), w);
    PressOne(c, u, Character('a', ""), w);
    MoveToAction(c, v, i, w);
  }

  /** Every action can be paused and resumed, and removed. */
  lemma ActionsCanBeControlled(c: Config, u: Ui, i: nat, w: World)
    requires NoMode(u) && i < |w.actions|
    ensures Press(c, u, [Character('a', "")] + Moves(u.nav.action, i) + [Space], w) ==
            AtAction(u, i).(out := u.out + [TogglePause(i)])
    ensures Press(c, u, [Character('a', "")] + Moves(u.nav.action, i) + [Delete], w) ==
            AtAction(u, if i > 0 then i - 1 else 0).(out := u.out + [RemoveAction(i)])
  {
    var keys := [Character('a', "")] + Moves(u.nav.action, i);
    SelectAction(c, u, i, w);
    PressThen(c, u, keys, [Space], w);
    PressOne(c, AtAction(u, i), Space, w);
    PressThen(c, u, keys, [Delete], w);
    PressOne(c, AtAction(u, i), Delete, w);
  }

  // ----- The Playback tab -----

  function AtPlayer(c: Config, u: Ui, i: nat): Ui {
    u.(nav := u.nav.(tab := PlaybackTab(c), level := 1, player := i))
  }

  lemma MoveToPlayer(c: Config, u: Ui, from: nat, i: nat, w: World)
    requires NoMode(u) && c.playback && i < |w.playback|
    ensures Press(c, AtPlayer(c, u, from), Moves(from, i), w) == AtPlayer(c, u, i)
  {
    Along(c, (j: nat) => AtPlayer(c, u, RowAt(from, i, j)), Moves(from, i), w);
  }

  lemma SelectPlayer(c: Config, u: Ui, i: nat, w: World)
    requires NoMode(u) && c.playback && i < |w.playback|
    ensures Press(c, u, [Character('p', "")] + Moves(u.nav.player, i), w) == AtPlayer(c, u, i)
  {
    PressThen(c, u, [Character('p', "")], Moves(u.nav.player, i), w);
    PressOne(c, u, Character('p', ""), w);
    assert OnEvent(c, u, Character('p', ""), w).ui == AtPlayer(c, u, u.nav.player);
    MoveToPlayer(c, u, u.nav.player, i, w);
  }

  function AtFilter(c: Config, u: Ui, i: nat, k: nat): Ui {
    u.(nav := u.nav.(tab := PlaybackTab(c), level := 2, player := i, playerMsg := k))
  }

  /** Every interface of a playback can be switched, and so can all or every one of its messages. */
  lemma PlaybackCanBeControlled(c: Config, u: Ui, i: nat, k: nat, w: World)
    requires NoMode(u) && c.playback && i < |w.playback| && k <= w.playback[i]
    ensures Press(c, u, [Character('p', "")] + Moves(u.nav.player, i) + [Return], w) ==
            AtPlayer(c, u, i).(out := u.out + [ToggleInterface(i)])
    ensures Press(c, u, [Character('p', "")] + Moves(u.nav.player, i) + ([Right] + Times(Down, k) + [Return]), w) ==
            AtFilter(c, u, i, k).(out := u.out + [ToggleMessage(i, k)])
  {
    var keys := [Character('p', "")] + Moves(u.nav.player, i);
    SelectPlayer(c, u, i, w);
    PressThen(c, u, keys, [Return], w);
    PressOne(c, AtPlayer(c, u, i), Return, w);
    PressThen(c, u, keys, [Right] + Times(Down, k) + [Return], w);
    FilterMessage(c, AtPlayer(c, u, i), i, k, w);
    assert AtFilter(c, AtPlayer(c, u, i), i, k) == AtFilter(c, u, i, k);
  }

  lemma FilterMessage(c: Config, u: Ui, i: nat, k: nat, w: World)
    requires NoMode(u) && c.playback && i < |w.playback| && k <= w.playback[i] && u == AtPlayer(c, u, i)
    ensures Press(c, u, [Right] + Times(Down, k) + [Return], w) == AtFilter(c, u, i, k).(out := u.out + [ToggleMessage(i, k)])
  {
    PressThen(c, u, [Right] + Times(Down, k), [Return], w);
    PressThen(c, u, [Right], Times(Down, k), w);
    PressOne(c, u, Right, w);
    Along(c, (j: nat) => AtFilter(c, u, i, j), Times(Down, k), w);
    PressOne(c, AtFilter(c, u, i, k), Return, w);
  }

  // ----- Editing a value -----

  /** The keys that replace the text in an edit buffer and confirm it. */
  function EditKeys(old_: string, text: string): seq<Event> {
    [Return] + Times(Backspace, |old_|) + Chars(text) + [Return]
  }

  predicate IsNumberText(text: string) {
    forall i | 0 <= i < |text| :: NumberChar(text[i])
  }

  /** `open` is the state with the given text in the buffer, and keys change that text. */
  ghost predicate Buffer(step: (Ui, Event) -> Ui, open: string -> Ui) {
    && (forall s: string | s != "" :: step(open(s), Backspace) == open(s[..|s| - 1]))
    && (forall s: string, ch: char | NumberChar(ch) :: step(open(s), Character(ch, "")) == open(s + [ch]))
  }

  lemma Retyped(step: (Ui, Event) -> Ui, u: Ui, open: string -> Ui, old_: string, text: string)
    requires IsNumberText(text) && step(u, Return) == open(old_) && Buffer(step, open)
    ensures PressBy(step, u, EditKeys(old_, text)) == step(open(text), Return)
  {
    var n := |old_|;
    Joined(step, u, [Return] + Times(Backspace, n) + Chars(text), [Return]);
    Joined(step, u, [Return] + Times(Backspace, n), Chars(text));
    Joined(step, u, [Return], Times(Backspace, n));
    JustOne(step, u, Return);
    Erased(step, open, old_);
    Filled(step, open, text);
    JustOne(step, open(text), Return);
  }

  lemma {:induction false} Erased(step: (Ui, Event) -> Ui, open: string -> Ui, old_: string)
    requires Buffer(step, open)
    ensures PressBy(step, open(old_), Times(Backspace, |old_|)) == open("")
    decreases |old_|
  {
    if old_ != "" {
      var n := |old_| - 1;
      assert Times(Backspace, n + 1) == [Backspace] + Times(Backspace, n);
      Joined(step, open(old_), [Backspace], Times(Backspace, n));
      JustOne(step, open(old_), Backspace);
      Erased(step, open, old_[..n]);
    }
  }

  lemma {:induction false} Filled(step: (Ui, Event) -> Ui, open: string -> Ui, text: string)
    requires Buffer(step, open) && IsNumberText(text)
    ensures PressBy(step, open(""), Chars(text)) == open(text)
    decreases |text|
  {
    if text != "" {
      var n := |text| - 1;
      var rest, last := text[..n], text[n];
      assert Chars(text) == Chars(rest) + [Character(last, "")] && rest + [last] == text;
      Filled(step, open, rest);
      Joined(step, open(""), Chars(rest), [Character(last, "")]);
      JustOne(step, open(rest), Character(last, ""));
    }
  }

  // ----- The Send tab -----

  function AtSignal(u: Ui, k: nat): Ui {
    u.(nav := u.nav.(sig := k))
  }

  lemma MoveToSignal(c: Config, u: Ui, k: nat, w: World)
    requires NoMode(u) && u.nav.level == 3 && AtMessage(c, u.nav)
    requires u.nav.sig <= SignalCount(c, u.nav) + 1 && k <= SignalCount(c, u.nav) + 1
    ensures Press(c, u, Moves(u.nav.sig, k), w) == AtSignal(u, k)
  {
    var from := u.nav.sig;
    Along(c, (j: nat) => AtSignal(u, RowAt(from, k, j)), Moves(from, k), w);
    assert AtSignal(u, RowAt(from, k, 0)) == u;
  }

  function Editing(u: Ui, s: string): Ui {
    u.(edit := Edit(true, s))
  }

  /** What keys do to the text while a signal is edited. */
  lemma EditingKeys(c: Config, u: Ui, s: string, ch: char, w: World)
    requires NoMode(u) && NumberChar(ch)
    ensures s != "" ==> OnEvent(c, Editing(u, s), Backspace, w).ui == Editing(u, s[..|s| - 1])
    ensures OnEvent(c, Editing(u, s), Character(ch, ""), w).ui == Editing(u, s + [ch])
  {
  }

  /** What confirming the text writes. */
  function Committed(c: Config, n: Nav, text: string): seq<Command>
    requires AtMessage(c, n)
  {
    if text != "" && c.stod(text).Some? then [SetValue(SelectedIface(c, n), n.msg, n.sig, c.stod(text).value)] else []
  }

  lemma EditingConfirmed(c: Config, u: Ui, text: string, w: World)
    requires NoMode(u) && u.edit == Closed && AtMessage(c, u.nav) && u.nav.sig < SignalCount(c, u.nav)
    ensures OnEvent(c, Editing(u, text), Return, w).ui == u.(out := u.out + Committed(c, u.nav, text))
  {
  }

  lemma EditingBuffer(c: Config, u: Ui, w: World)
    requires NoMode(u)
    ensures Buffer(Key(c, w), (s: string) => Editing(u, s))
  {
    var step, open := Key(c, w), (s: string) => Editing(u, s);
    forall s: string | s != "" ensures step(open(s), Backspace) == open(s[..|s| - 1]) {
      EditingKeys(c, u, s, '0', w);
    }
    forall s: string, ch: char | NumberChar(ch) ensures step(open(s), Character(ch, "")) == open(s + [ch]) {
      EditingKeys(c, u, s, ch, w);
    }
  }

  lemma SignalOpens(c: Config, u: Ui, w: World)
    requires NoMode(u) && u.nav.level == 3 && AtMessage(c, u.nav) && u.nav.sig < SignalCount(c, u.nav)
    ensures OnEvent(c, u, Return, w).ui == Editing(u, w.text)
  {
  }

  lemma EditSignal(c: Config, u: Ui, text: string, w: World)
    requires NoMode(u) && u.edit == Closed && u.nav.level == 3 && AtMessage(c, u.nav) && u.nav.sig < SignalCount(c, u.nav)
    requires IsNumberText(text)
    ensures Press(c, u, EditKeys(w.text, text), w) == u.(out := u.out + Committed(c, u.nav, text))
  {
    EditingBuffer(c, u, w);
    SignalOpens(c, u, w);
    Retyped(Key(c, w), u, (s: string) => Editing(u, s), w.text, text);
    EditingConfirmed(c, u, text, w);
  }

  /** Every signal of the selected message can be given every number: the text is replaced, confirmed and converted. */
  lemma SignalsCanBeSet(c: Config, u: Ui, k: nat, text: string, w: World)
    requires Inv(c, u) && NoMode(u) && u.nav.level == 3 && k < SignalCount(c, u.nav) && IsNumberText(text)
    ensures Press(c, u, Moves(u.nav.sig, k) + EditKeys(w.text, text), w) ==
            AtSignal(u, k).(out := u.out + (if text != "" && c.stod(text).Some?
                                            then [SetValue(SelectedIface(c, u.nav), u.nav.msg, k, c.stod(text).value)] else []))
  {
    PressThen(c, u, Moves(u.nav.sig, k), EditKeys(w.text, text), w);
    MoveToSignal(c, u, k, w);
    EditSignal(c, AtSignal(u, k), text, w);
  }

  /** The button behind the signals and the key 1 both create a single action of the selected message. */
  lemma SingleCanBeCreated(c: Config, u: Ui, w: World)
    requires Inv(c, u) && NoMode(u) && u.nav.level == 3
    ensures var created := [CreateSingle(SelectedIface(c, u.nav), u.nav.msg)];
            && Press(c, u, Moves(u.nav.sig, SignalCount(c, u.nav)) + [Return], w) ==
               AtSignal(u, SignalCount(c, u.nav)).(out := u.out + created)
            && Press(c, u, [Character('1', "")], w) == u.(out := u.out + created)
  {
    var k := SignalCount(c, u.nav);
    PressThen(c, u, Moves(u.nav.sig, k), [Return], w);
    MoveToSignal(c, u, k, w);
    PressOne(c, AtSignal(u, k), Return, w);
    PressOne(c, u, Character('1', ""), w);
  }

  // ----- Editing an action -----

  function AtActionSig(u: Ui, i: nat, k: nat): Ui {
    u.(nav := u.nav.(tab := 2, level := 2, action := i, actionSig := k))
  }

  lemma OpenAction(c: Config, u: Ui, i: nat, k: nat, w: World)
    requires NoMode(u) && i < |w.actions| && (k == 0 || k <= LastActionSig(c, w.actions[i]))
    ensures Press(c, u, [Character('a', "")] + Moves(u.nav.action, i) + ([Right] + Times(Down, k)), w) == AtActionSig(u, i, k)
  {
    PressThen(c, u, [Character('a', "")] + Moves(u.nav.action, i), [Right] + Times(Down, k), w);
    SelectAction(c, u, i, w);
    PressThen(c, AtAction(u, i), [Right], Times(Down, k), w);
    PressOne(c, AtAction(u, i), Right, w);
    Along(c, (j: nat) => AtActionSig(u, i, j), Times(Down, k), w);
  }

  /** The k-th value of the action can be edited: amplitude, period and offset of a sine, or a signal of its message. */
  predicate HasValue(c: Config, row: ActionRow, k: nat) {
    if row.sin then k <= 2
    else row.iface in c.models &&
         var m := FindMessage(c.models[row.iface], row.msgId);
         m < |c.models[row.iface]| && k < c.models[row.iface][m].signals
  }

  /** What confirming the text does to the i-th action. */
  function Edited(c: Config, row: ActionRow, i: nat, k: nat, text: string): seq<Command>
    requires HasValue(c, row, k)
  {
    if text == "" || c.stod(text).None? then []
    else if row.sin then [UpdateSinParam(i, k, c.stod(text).value)]
    else [SetValue(row.iface, FindMessage(c.models[row.iface], row.msgId), k, c.stod(text).value),
          UpdatePayload(i, row.iface, FindMessage(c.models[row.iface], row.msgId))]
  }

  function EditingAction(u: Ui, s: string): Ui {
    u.(actionEdit := Edit(true, s))
  }

  lemma EditingActionKeys(c: Config, u: Ui, s: string, ch: char, w: World)
    requires NumberChar(ch)
    ensures s != "" ==> OnEvent(c, EditingAction(u, s), Backspace, w).ui == EditingAction(u, s[..|s| - 1])
    ensures OnEvent(c, EditingAction(u, s), Character(ch, ""), w).ui == EditingAction(u, s + [ch])
  {
  }

  lemma EditingActionConfirmed(c: Config, u: Ui, i: nat, k: nat, text: string, w: World)
    requires u.actionEdit == Closed && i < |w.actions| && HasValue(c, w.actions[i], k) && u == AtActionSig(u, i, k)
    ensures OnEvent(c, EditingAction(u, text), Return, w).ui == u.(out := u.out + Edited(c, w.actions[i], i, k, text))
  {
    assert ActionCommit(c, EditingAction(u, text), w) == Edited(c, w.actions[i], i, k, text);
  }

  lemma ActionOpens(c: Config, u: Ui, i: nat, k: nat, w: World)
    requires NoMode(u) && i < |w.actions| && HasValue(c, w.actions[i], k) && u == AtActionSig(u, i, k)
    ensures OnEvent(c, u, Return, w).ui == EditingAction(u, w.text)
  {
    assert Editable(c, w.actions[i]);
  }

  lemma EditingActionBuffer(c: Config, u: Ui, w: World)
    ensures Buffer(Key(c, w), (s: string) => EditingAction(u, s))
  {
    var step, open := Key(c, w), (s: string) => EditingAction(u, s);
    forall s: string | s != "" ensures step(open(s), Backspace) == open(s[..|s| - 1]) {
      EditingActionKeys(c, u, s, '0', w);
    }
    forall s: string, ch: char | NumberChar(ch) ensures step(open(s), Character(ch, "")) == open(s + [ch]) {
      EditingActionKeys(c, u, s, ch, w);
    }
  }

  lemma EditAction(c: Config, u: Ui, i: nat, k: nat, text: string, w: World)
    requires NoMode(u) && u.actionEdit == Closed && i < |w.actions| && HasValue(c, w.actions[i], k) && IsNumberText(text)
    requires u == AtActionSig(u, i, k)
    ensures Press(c, u, EditKeys(w.text, text), w) == u.(out := u.out + Edited(c, w.actions[i], i, k, text))
  {
    EditingActionBuffer(c, u, w);
    ActionOpens(c, u, i, k, w);
    Retyped(Key(c, w), u, (s: string) => EditingAction(u, s), w.text, text);
    EditingActionConfirmed(c, u, i, k, text, w);
  }

  /** Every value of every action can be changed: a sine parameter directly, a signal in the model with the payload after it. */
  lemma ActionsCanBeEdited(c: Config, u: Ui, i: nat, k: nat, text: string, w: World)
    requires Inv(c, u) && NoMode(u) && i < |w.actions| && HasValue(c, w.actions[i], k) && IsNumberText(text)
    ensures Press(c, u, [Character('a', "")] + Moves(u.nav.action, i) + ([Right] + Times(Down, k)) + EditKeys(w.text, text), w) ==
            AtActionSig(u, i, k).(out := u.out + Edited(c, w.actions[i], i, k, text))
  {
    var keys := [Character('a', "")] + Moves(u.nav.action, i) + ([Right] + Times(Down, k));
    PressThen(c, u, keys, EditKeys(w.text, text), w);
    OpenAction(c, u, i, k, w);
    EditAction(c, AtActionSig(u, i, k), i, k, text, w);
  }

  // ----- The sine wizard -----

  function InWizard(u: Ui, z: Wizard): Ui {
    u.(wizard := z)
  }

  lemma DecimalAccepted(text: string, j: nat)
    requires Decimal(text) && j < |text|
    ensures NumberInput(text[..j], true, Character(text[j], "")) == (text[..j + 1], true)
  {
    assert text[..j] + [text[j]] == text[..j + 1];
  }

  lemma AmplitudeTyped(c: Config, u: Ui, z: Wizard, text: string, w: World)
    requires !u.actionEdit.on && z.step.SinAmplitude? && z.amplitude == "" && Decimal(text)
    ensures Press(c, InWizard(u, z), Chars(text), w) == InWizard(u, z.(amplitude := text))
  {
    var path := (j: nat) => InWizard(u, z.(amplitude := if j <= |text| then text[..j] else text));
    forall j: nat | j < |text| ensures OnEvent(c, path(j), Chars(text)[j], w).ui == path(j + 1) {
      DecimalAccepted(text, j);
    }
    Along(c, path, Chars(text), w);
    assert text[..|text|] == text && text[..0] == "";
  }

  lemma OffsetTyped(c: Config, u: Ui, z: Wizard, text: string, w: World)
    requires !u.actionEdit.on && z.step.SinOffset? && z.offset == "" && Decimal(text)
    ensures Press(c, InWizard(u, z), Chars(text), w) == InWizard(u, z.(offset := text))
  {
    var path := (j: nat) => InWizard(u, z.(offset := if j <= |text| then text[..j] else text));
    forall j: nat | j < |text| ensures OnEvent(c, path(j), Chars(text)[j], w).ui == path(j + 1) {
      DecimalAccepted(text, j);
    }
    Along(c, path, Chars(text), w);
    assert text[..|text|] == text && text[..0] == "";
  }

  lemma PeriodTyped(c: Config, u: Ui, z: Wizard, text: string, w: World)
    requires !u.actionEdit.on && z.step.SinPeriod? && z.period == "" && AllDigits(text)
    ensures Press(c, InWizard(u, z), Chars(text), w) == InWizard(u, z.(period := text))
  {
    var path := (j: nat) => InWizard(u, z.(period := if j <= |text| then text[..j] else text));
    forall j: nat | j < |text| ensures OnEvent(c, path(j), Chars(text)[j], w).ui == path(j + 1) {
      assert text[..j] + [text[j]] == text[..j + 1];
    }
    Along(c, path, Chars(text), w);
    assert text[..|text|] == text && text[..0] == "";
  }

  lemma IntervalTyped(c: Config, u: Ui, z: Wizard, text: string, w: World)
    requires !u.actionEdit.on && z.step.Period? && z.interval == "" && AllDigits(text)
    ensures Press(c, InWizard(u, z), Chars(text), w) == InWizard(u, z.(interval := text))
  {
    var path := (j: nat) => InWizard(u, z.(interval := if j <= |text| then text[..j] else text));
    forall j: nat | j < |text| ensures OnEvent(c, path(j), Chars(text)[j], w).ui == path(j + 1) {
      assert text[..j] + [text[j]] == text[..j + 1];
    }
    Along(c, path, Chars(text), w);
    assert text[..|text|] == text && text[..0] == "";
  }

  /** The keys up to the amplitude: open the wizard, type the interval, choose the sine. */
  function SineStart(interval: string): seq<Event> {
    [Character('2', "")] + Chars(interval) + [Return] + [Right] + [Return]
  }

  /** The state of the wizard after the interval was confirmed. */
  function Chosen(interval: string): Wizard {
    Wizard(TypeSelect, interval, DigitsValue(interval), false, "", "", "")
  }

  lemma IntervalEntered(c: Config, u: Ui, interval: string, w: World)
    requires Inv(c, u) && NoMode(u) && u.nav.level == 3 && AllDigits(interval)
    requires 0 < DigitsValue(interval) < 0x8000_0000_0000_0000
    ensures Press(c, u, [Character('2', "")] + Chars(interval) + [Return], w) ==
            InWizard(AtSignal(u, SignalCount(c, u.nav) + 1), Chosen(interval))
  {
    var v := AtSignal(u, SignalCount(c, u.nav) + 1);
    var z := NoWizard.(step := Period);
    PressThen(c, u, [Character('2', "")] + Chars(interval), [Return], w);
    PressThen(c, u, [Character('2', "")], Chars(interval), w);
    PressOne(c, u, Character('2', ""), w);
    assert OnEvent(c, u, Character('2', ""), w).ui == InWizard(v, z);
    IntervalTyped(c, v, z, interval, w);
    PressOne(c, InWizard(v, z.(interval := interval)), Return, w);
  }

  lemma SineStarts(c: Config, u: Ui, interval: string, w: World)
    requires Inv(c, u) && NoMode(u) && u.nav.level == 3 && AllDigits(interval)
    requires 0 < DigitsValue(interval) < 0x8000_0000_0000_0000
    ensures Press(c, u, SineStart(interval), w) ==
            InWizard(AtSignal(u, SignalCount(c, u.nav) + 1), Chosen(interval).(step := SinAmplitude, sine := true))
  {
    var v, z := AtSignal(u, SignalCount(c, u.nav) + 1), Chosen(interval);
    var keys := [Character('2', "")] + Chars(interval) + [Return];
    PressThen(c, u, keys + [Right], [Return], w);
    PressThen(c, u, keys, [Right], w);
    IntervalEntered(c, u, interval, w);
    PressOne(c, InWizard(v, z), Right, w);
    PressOne(c, InWizard(v, z.(sine := true)), Return, w);
  }

  /** The keys that fill in the fields and confirm twice. */
  function SineFields(amplitude: string, period: string, offset: string): seq<Event> {
    Chars(amplitude) + [Down] + Chars(period) + [Down] + Chars(offset) + [Return] + [Return]
  }

  lemma AmplitudeAndPeriod(c: Config, u: Ui, z: Wizard, amplitude: string, period: string, w: World)
    requires !u.actionEdit.on && z.step.SinAmplitude? && z.amplitude == "" && z.period == ""
    requires Decimal(amplitude) && AllDigits(period)
    ensures Press(c, InWizard(u, z), Chars(amplitude) + [Down] + Chars(period) + [Down], w) ==
            InWizard(u, z.(step := SinOffset, amplitude := amplitude, period := period))
  {
    var v, z1 := InWizard(u, z), z.(amplitude := amplitude);
    PressThen(c, v, Chars(amplitude) + [Down] + Chars(period), [Down], w);
    PressThen(c, v, Chars(amplitude) + [Down], Chars(period), w);
    PressThen(c, v, Chars(amplitude), [Down], w);
    AmplitudeTyped(c, u, z, amplitude, w);
    PressOne(c, InWizard(u, z1), Down, w);
    PeriodTyped(c, u, z1.(step := SinPeriod), period, w);
    PressOne(c, InWizard(u, z1.(step := SinPeriod, period := period)), Down, w);
  }

  lemma OffsetAndConfirm(c: Config, u: Ui, z: Wizard, offset: string, w: World)
    requires !u.actionEdit.on && z.step.SinOffset? && z.offset == "" && Decimal(offset)
    ensures Press(c, InWizard(u, z), Chars(offset) + [Return] + [Return], w) ==
            OnSinReady(c, InWizard(u, z.(step := SinReady, offset := offset)), Return).ui
  {
    var v := InWizard(u, z);
    PressThen(c, v, Chars(offset) + [Return], [Return], w);
    PressThen(c, v, Chars(offset), [Return], w);
    OffsetTyped(c, u, z, offset, w);
    PressOne(c, InWizard(u, z.(offset := offset)), Return, w);
    PressOne(c, InWizard(u, z.(step := SinReady, offset := offset)), Return, w);
  }

  lemma SineFilled(c: Config, u: Ui, z: Wizard, amplitude: string, period: string, offset: string, w: World)
    requires !u.actionEdit.on && z.step.SinAmplitude? && z.amplitude == "" && z.period == "" && z.offset == ""
    requires Decimal(amplitude) && AllDigits(period) && Decimal(offset)
    ensures Press(c, InWizard(u, z), SineFields(amplitude, period, offset), w) ==
            OnSinReady(c, InWizard(u, z.(step := SinReady, amplitude := amplitude, period := period, offset := offset)), Return).ui
  {
    var a, b := Chars(amplitude) + [Down] + Chars(period) + [Down], Chars(offset) + [Return] + [Return];
    assert SineFields(amplitude, period, offset) == a + b;
    PressThen(c, InWizard(u, z), a, b, w);
    AmplitudeAndPeriod(c, u, z, amplitude, period, w);
    OffsetAndConfirm(c, u, z.(step := SinOffset, amplitude := amplitude, period := period), offset, w);
  }

  /** A number of a field: the given default where it is empty, nothing where it does not convert. */
  function FieldNumber(c: Config, text: string, default: real): Option<real> {
    if text == "" then Some(default) else c.stod(text)
  }

  /** The period of the sine: 1000 where it is empty, nothing where it is 0 or too large. */
  function FieldPeriod(text: string): Option<nat> {
    if text == "" then Some(1000)
    else if 0 < DigitsValue(text) < 0x8000_0000_0000_0000 then Some(DigitsValue(text)) else None
  }

  lemma SineConfirmed(c: Config, u: Ui, z: Wizard)
    requires z.step.SinReady? && AllDigits(z.period) && AtMessage(c, u.nav) && SignalCount(c, u.nav) > 0
    requires u.nav.sig == SignalCount(c, u.nav) + 1 && u.wizard == NoWizard
    ensures var amplitude, period, offset := FieldNumber(c, z.amplitude, 0.0), FieldPeriod(z.period), FieldNumber(c, z.offset, 0.0);
            OnSinReady(c, InWizard(u, z), Return).ui ==
              if amplitude.Some? && period.Some? && offset.Some?
              then u.(out := u.out + [CreateSin(SelectedIface(c, u.nav), u.nav.msg, SignalCount(c, u.nav) - 1, z.intervalMs,
                                                amplitude.value, period.value, offset.value)])
              else u
  {
  }

  /**
    Typing interval, amplitude, period and offset creates exactly that sine
    action, on the last signal of the message, if the fields convert; an empty
    amplitude or offset counts 0, an empty period 1000.
   */
  lemma SineCanBeCreated(c: Config, u: Ui, interval: string, amplitude: string, period: string, offset: string, w: World)
    requires Inv(c, u) && NoMode(u) && u.nav.level == 3 && SignalCount(c, u.nav) > 0
    requires AllDigits(interval) && 0 < DigitsValue(interval) < 0x8000_0000_0000_0000
    requires Decimal(amplitude) && AllDigits(period) && Decimal(offset)
    ensures var a, p, o := FieldNumber(c, amplitude, 0.0), FieldPeriod(period), FieldNumber(c, offset, 0.0);
            var v := AtSignal(u, SignalCount(c, u.nav) + 1);
            Press(c, u, SineStart(interval) + SineFields(amplitude, period, offset), w) ==
              if a.Some? && p.Some? && o.Some?
              then v.(out := u.out + [CreateSin(SelectedIface(c, u.nav), u.nav.msg, SignalCount(c, u.nav) - 1,
                                                DigitsValue(interval), a.value, p.value, o.value)])
              else v
  {
    var v := AtSignal(u, SignalCount(c, u.nav) + 1);
    var z := Chosen(interval).(step := SinAmplitude, sine := true);
    PressThen(c, u, SineStart(interval), SineFields(amplitude, period, offset), w);
    SineStarts(c, u, interval, w);
    SineFilled(c, v, z, amplitude, period, offset, w);
    SineConfirmed(c, v, z.(step := SinReady, amplitude := amplitude, period := period, offset := offset));
  }

  // ----- Tabs -----

  /** Going right from tab to tab comes to every tab. */
  lemma {:induction false} EveryTabIsReached(c: Config, u: Ui, k: nat, w: World)
    requires NoMode(u) && u.nav.level == 0 && u.nav.tab < TabCount(c) && k < TabCount(c)
    ensures Press(c, u, Times(Right, Steps(u.nav.tab, k, TabCount(c))), w) == u.(nav := u.nav.(tab := k))
    decreases Steps(u.nav.tab, k, TabCount(c))
  {
    var n := Steps(u.nav.tab, k, TabCount(c));
    if u.nav.tab != k {
      NextStep(u.nav.tab, k, TabCount(c));
      var v := u.(nav := u.nav.(tab := (u.nav.tab + 1) % TabCount(c)));
      assert Times(Right, n) == [Right] + Times(Right, n - 1);
      PressThen(c, u, [Right], Times(Right, n - 1), w);
      PressOne(c, u, Right, w);
      assert OnEvent(c, u, Right, w).ui == v;
      EveryTabIsReached(c, v, k, w);
    }
  }

  /** In the Trace tab going right comes to every trace, at its top. */
  lemma {:induction false} EveryTraceIsReached(c: Config, u: Ui, k: nat, w: World)
    requires NoMode(u) && u.nav.level == 1 && u.nav.tab == 0 && u.nav.subTrace < |w.traces| && k < |w.traces| && u.nav.trace == 0
    ensures Press(c, u, Times(Right, Steps(u.nav.subTrace, k, |w.traces|)), w) == u.(nav := u.nav.(subTrace := k))
    decreases Steps(u.nav.subTrace, k, |w.traces|)
  {
    var n := Steps(u.nav.subTrace, k, |w.traces|);
    if u.nav.subTrace != k {
      NextStep(u.nav.subTrace, k, |w.traces|);
      var v := u.(nav := u.nav.(subTrace := (u.nav.subTrace + 1) % |w.traces|));
      assert Times(Right, n) == [Right] + Times(Right, n - 1);
      PressThen(c, u, [Right], Times(Right, n - 1), w);
      PressOne(c, u, Right, w);
      EveryTraceIsReached(c, v, k, w);
    }
  }

  lemma BackAgain(a: nat, n: nat)
    requires a < n
    ensures ((a + 1) % n + n - 1) % n == a
  {
    Bits.ModUnique(a + 1, n, if a + 1 == n then 1 else 0, if a + 1 == n then 0 else a + 1);
    Bits.ModUnique((a + 1) % n + n - 1, n, if a + 1 == n then 0 else 1, a);
  }

  lemma PressTwo(c: Config, u: Ui, d: Event, e: Event, w: World)
    ensures Press(c, u, [d] + [e], w) == OnEvent(c, OnEvent(c, u, d, w).ui, e, w).ui
  {
    PressThen(c, u, [d], [e], w);
    PressOne(c, u, d, w);
    PressOne(c, OnEvent(c, u, d, w).ui, e, w);
  }

  /** Left undoes right among the tabs. */
  lemma LeftUndoesRight(c: Config, u: Ui, w: World)
    requires NoMode(u) && u.nav.level == 0 && u.nav.tab < TabCount(c)
    ensures Press(c, u, [Right] + [Left], w) == u
  {
    PressTwo(c, u, Right, Left, w);
    BackAgain(u.nav.tab, TabCount(c));
  }

  lemma LeftUndoesRightTrace(c: Config, u: Ui, w: World)
    requires NoMode(u) && u.nav.level == 1 && u.nav.tab == 0 && u.nav.subTrace < |w.traces| && u.nav.trace == 0
    ensures Press(c, u, [Right] + [Left], w) == u
  {
    PressTwo(c, u, Right, Left, w);
    BackAgain(u.nav.subTrace, |w.traces|);
    assert OnEvent(c, u, Right, w).ui == u.(nav := u.nav.(subTrace := (u.nav.subTrace + 1) % |w.traces|));
  }

  lemma LeftUndoesRightSend(c: Config, u: Ui, w: World)
    requires NoMode(u) && u.nav.level == 1 && u.nav.tab == 1 && u.nav.subSend < |c.interfaces|
    ensures Press(c, u, [Right] + [Left], w) == u
  {
    PressTwo(c, u, Right, Left, w);
    BackAgain(u.nav.subSend, |c.interfaces|);
    assert OnEvent(c, u, Right, w).ui == u.(nav := u.nav.(subSend := (u.nav.subSend + 1) % |c.interfaces|));
  }

  function AtFrame(u: Ui, k: nat): Ui {
    u.(nav := u.nav.(trace := k))
  }

  /** Every frame of the shown trace can be reached. */
  lemma TraceCanBeScrolled(c: Config, u: Ui, k: nat, w: World)
    requires NoMode(u) && u.nav.level == 1 && u.nav.tab == 0 && u.nav.trace == 0 && u.nav.subTrace < |w.traces|
    requires k < w.traces[u.nav.subTrace]
    ensures Press(c, u, Times(Down, k), w) == AtFrame(u, k)
  {
    Along(c, (j: nat) => AtFrame(u, j), Times(Down, k), w);
    assert AtFrame(u, 0) == u;
  }

  lemma TraceUp(c: Config, u: Ui, k: nat, w: World)
    requires NoMode(u) && u.nav.level == 1 && u.nav.tab == 0
    ensures Press(c, AtFrame(u, k), Times(Up, k), w) == AtFrame(u, 0)
  {
    Along(c, (j: nat) => AtFrame(u, if j <= k then k - j else 0), Times(Up, k), w);
  }

  /** From there up leads to the top, and then to the main tabs. */
  lemma TraceCanBeLeft(c: Config, u: Ui, w: World)
    requires NoMode(u) && u.nav.level == 1 && u.nav.tab == 0
    ensures Press(c, u, Times(Up, u.nav.trace) + [Up], w) == u.(nav := u.nav.(trace := 0, level := 0))
  {
    assert AtFrame(u, u.nav.trace) == u;
    PressThen(c, u, Times(Up, u.nav.trace), [Up], w);
    TraceUp(c, u, u.nav.trace, w);
    PressOne(c, AtFrame(u, 0), Up, w);
  }

  // ----- Searching -----

  function Searching(u: Ui, s: string): Ui {
    u.(search := Edit(true, s))
  }

  /** The search keeps what is typed, and Escape forgets it. */
  lemma SearchIsTyped(c: Config, u: Ui, text: string, w: World)
    requires NoMode(u) && u.search == Closed && u.nav.tab == 0
    ensures Press(c, u, [Character('f', "")] + Chars(text), w) == Searching(u, text)
  {
    PressThen(c, u, [Character('f', "")], Chars(text), w);
    PressOne(c, u, Character('f', ""), w);
    SearchFilled(c, u, text, w);
  }

  lemma SearchFilled(c: Config, u: Ui, text: string, w: World)
    requires NoMode(u)
    ensures Press(c, Searching(u, ""), Chars(text), w) == Searching(u, text)
  {
    var path := (j: nat) => Searching(u, if j <= |text| then text[..j] else text);
    forall j: nat | j < |text| ensures OnEvent(c, path(j), Chars(text)[j], w).ui == path(j + 1) {
      assert text[..j] + [text[j]] + "" == text[..j + 1];
    }
    Along(c, path, Chars(text), w);
    assert text[..|text|] == text && text[..0] == "";
  }

  /** A key of several bytes is kept whole; Backspace takes one of them away, and Escape everything. */
  lemma SearchKeys(c: Config, u: Ui, s: string, ch: char, tail: string, w: World)
    requires NoMode(u) && u.search == Closed
    ensures OnEvent(c, Searching(u, s), Character(ch, tail), w).ui == Searching(u, s + [ch] + tail)
    ensures OnEvent(c, Searching(u, s + [ch]), Backspace, w).ui == Searching(u, s)
    ensures OnEvent(c, Searching(u, s), Escape, w).ui == u
  {
    assert (s + [ch])[..|s|] == s;
  }

  // ----- The way back -----

  /** How many keys the main tabs are away. */
  function FromHome(c: Config, u: Ui): nat {
    if u.nav.level == 0 then 0
    else if u.nav.level == 1 then
      1 + (if u.nav.tab == PlaybackTab(c) && c.playback then u.nav.player
           else if u.nav.tab == 2 then u.nav.action else if u.nav.tab == 0 then u.nav.trace else 0)
    else u.nav.level + u.nav.player + u.nav.action + u.nav.trace
  }

  /** Left from the deeper levels, then up. */
  function Homeward(u: Ui): Event {
    if u.nav.level > 1 then Left else Up
  }

  lemma HomewardNearer(c: Config, u: Ui, w: World)
    requires Inv(c, u) && NoMode(u) && u.nav.level > 0
    ensures var v := OnEvent(c, u, Homeward(u), w).ui;
            NoMode(v) && v.nav.tab == u.nav.tab && v.out == u.out && FromHome(c, v) < FromHome(c, u)
  {
  }

  /** From every state without a mode, left and up lead back to the main tabs, in the same tab, without issuing anything. */
  lemma {:induction false} AlwaysHome(c: Config, u: Ui, w: World) returns (keys: seq<Event>)
    requires Inv(c, u) && NoMode(u)
    ensures forall i | 0 <= i < |keys| :: keys[i].Left? || keys[i].Up?
    ensures var v := Press(c, u, keys, w); v.nav.level == 0 && v.nav.tab == u.nav.tab && v.out == u.out
    decreases FromHome(c, u)
  {
    if u.nav.level == 0 {
      keys := [];
    } else {
      HomewardNearer(c, u, w);
      EventKeeps(c, u, Homeward(u), w);
      var rest := AlwaysHome(c, OnEvent(c, u, Homeward(u), w).ui, w);
      keys := [Homeward(u)] + rest;
      assert keys[1..] == rest;
    }
  }

  // ----- Single keys -----

  /** The tabs: Trace, Send, Actions, then the model where it is enabled, and playback last where there is one. */
  lemma TabsMean(c: Config)
    ensures TabCount(c) == if c.modelTab && c.playback then 5 else if c.modelTab || c.playback then 4 else 3
    ensures c.playback ==> PlaybackTab(c) == TabCount(c) - 1
    ensures c.modelTab ==> 3 < TabCount(c) && PlaybackTab(c) != 3
  {
  }

  /** From no mode the letters jump to the tabs, where these exist, and q and Escape quit. */
  lemma LettersJump(c: Config, u: Ui, w: World)
    requires NoMode(u)
    ensures OnEvent(c, u, Character('t', ""), w).ui == u.(nav := u.nav.(tab := 0, level := 1))
    ensures OnEvent(c, u, Character('s', ""), w).ui == u.(nav := u.nav.(tab := 1, level := 1))
    ensures OnEvent(c, u, Character('a', ""), w).ui == u.(nav := u.nav.(tab := 2, level := 1))
    ensures c.modelTab ==> OnEvent(c, u, Character('m', ""), w).ui == u.(nav := u.nav.(tab := 3, level := 1))
    ensures !c.modelTab ==> OnEvent(c, u, Character('m', ""), w).ui == u
    ensures !c.playback ==> OnEvent(c, u, Character('p', ""), w).ui == u
    ensures OnEvent(c, u, Character('q', ""), w).ui == u.(out := u.out + [Quit])
  {
  }

  /** Keys that do the same: Right and Return, Delete and Backspace, Return and Left, Return and Down, each in its place. */
  lemma KeysAlike(c: Config, u: Ui, w: World)
    requires Inv(c, u)
    ensures NoMode(u) && u.nav.level == 3 ==> OnEvent(c, u, Right, w) == OnEvent(c, u, Return, w)
    ensures NoMode(u) && u.nav.level == 2 && u.nav.tab == 1 ==> OnEvent(c, u, Right, w) == OnEvent(c, u, Return, w)
    ensures NoMode(u) && u.nav.level == 1 && u.nav.tab == 2 ==>
              OnEvent(c, u, Right, w) == OnEvent(c, u, Return, w) && OnEvent(c, u, Delete, w) == OnEvent(c, u, Backspace, w)
    ensures u.edit.on || u.actionEdit.on ==> OnEvent(c, u, Left, w) == OnEvent(c, u, Return, w)
    ensures u.wizard.step.Period? || u.wizard.step.SinReady? ==> OnEvent(c, u, Right, w) == OnEvent(c, u, Return, w)
    ensures u.wizard.step.SinAmplitude? || u.wizard.step.SinPeriod? || u.wizard.step.SinOffset? ==>
              OnEvent(c, u, Down, w) == OnEvent(c, u, Return, w)
  {
  }

  /** Up goes back in the wizard, one step at a time, and keeps everything that was typed. */
  lemma WizardGoesBack(c: Config, u: Ui, w: World)
    requires Inv(c, u)
    ensures u.wizard.step.TypeSelect? ==> OnEvent(c, u, Up, w).ui == InWizard(u, u.wizard.(step := Period))
    ensures u.wizard.step.SinAmplitude? ==> OnEvent(c, u, Up, w).ui == InWizard(u, u.wizard.(step := TypeSelect))
    ensures u.wizard.step.SinPeriod? ==> OnEvent(c, u, Up, w).ui == InWizard(u, u.wizard.(step := SinAmplitude))
    ensures u.wizard.step.SinOffset? ==> OnEvent(c, u, Up, w).ui == InWizard(u, u.wizard.(step := SinPeriod))
    ensures u.wizard.step.SinReady? ==> OnEvent(c, u, Up, w).ui == InWizard(u, u.wizard.(step := SinOffset))
    ensures u.wizard.step.TypeSelect? ==>
              OnEvent(c, u, Left, w) == OnEvent(c, u, Right, w) &&
              OnEvent(c, u, Left, w).ui == InWizard(u, u.wizard.(sine := !u.wizard.sine))
  {
  }

  /** In a numeric field every digit is added, a point once and a minus in front where decimals are allowed, nothing else; Backspace takes back the last. */
  lemma FieldInput(buf: string, decimal: bool, ch: char, tail: string)
    ensures var accepted := '0' <= ch <= '9' || (decimal && ch == '.' && '.' !in buf) || (decimal && ch == '-' && buf == "");
            NumberInput(buf, decimal, Character(ch, tail)) == (if accepted then buf + [ch] else buf, true)
    ensures NumberInput(buf + [ch], decimal, Backspace) == (buf, true)
    ensures NumberInput("", decimal, Backspace) == ("", true)
  {
    assert (buf + [ch])[..|buf|] == buf;
  }

  /** Numbers are made of digits, points and minus signs. */
  lemma NumberCharMeans(ch: char)
    ensures NumberChar(ch) <==> ch in "0123456789.-"
  {
    var s := "0123456789.-";
    if NumberChar(ch) {
      var k := if ch == '.' then 10 else if ch == '-' then 11 else ch as int - '0' as int;
      assert s[k] == ch;
    }
  }

  /** The digits of a number are read as that number, so every interval and period can be typed. */
  lemma {:induction false} DigitsAreRead(n: nat)
    ensures AllDigits(G.Numeral(n)) && DigitsValue(G.Numeral(n)) == n
  {
    G.NumeralMeans(n);
    if n >= 10 {
      DigitsAreRead(n / 10);
      G.DigitMeans(n % 10);
      assert G.Numeral(n)[..|G.Numeral(n)| - 1] == G.Numeral(n / 10);
    } else {
      G.DigitMeans(n);
      assert G.Numeral(n)[..0] == "";
    }
  }

  /** In the lists inside the tabs Up goes back by one row, and stays at the top. */
  lemma UpGoesBack(c: Config, u: Ui, w: World)
    requires NoMode(u) && Inv(c, u) && u.nav.level >= 2
    ensures var n, v := u.nav, OnEvent(c, u, Up, w).ui;
            && (n.level == 3 ==> v == u.(nav := n.(sig := if n.sig == 0 then 0 else n.sig - 1)))
            && (n.level == 2 && n.tab == 1 ==> v == u.(nav := n.(msg := if n.msg == 0 then 0 else n.msg - 1)))
            && (n.level == 2 && n.tab == 2 ==> v == u.(nav := n.(actionSig := if n.actionSig == 0 then 0 else n.actionSig - 1)))
            && (n.level == 2 && n.tab > 2 ==> v == u.(nav := n.(playerMsg := if n.playerMsg == 0 then 0 else n.playerMsg - 1)))
  {
  }

  /** Left leads one level up from a list inside a tab, and another trace is shown from its top. */
  lemma LeftAndAround(c: Config, u: Ui, w: World)
    requires NoMode(u) && Inv(c, u)
    ensures u.nav.level >= 2 ==> OnEvent(c, u, Left, w).ui == u.(nav := u.nav.(level := u.nav.level - 1))
    ensures u.nav.level == 1 && u.nav.tab == 0 && w.traces != [] ==>
              OnEvent(c, u, Left, w).ui.nav.trace == 0 && OnEvent(c, u, Right, w).ui.nav.trace == 0
  {
  }

  /** An event that is not handled changes nothing, and an event of the program itself never is. */
  lemma UnhandledChangesNothing(c: Config, u: Ui, e: Event, w: World)
    ensures !OnEvent(c, u, e, w).handled ==> OnEvent(c, u, e, w).ui == u
    ensures e.Custom? ==> !OnEvent(c, u, e, w).handled
  {
  }

  /** Modes take the keys meant for them: all of them Escape, all but the search Return, and the text modes every character. */
  lemma ModesHandleKeys(c: Config, u: Ui, e: Event, w: World)
    requires Inv(c, u) && !NoMode(u)
    ensures e.Escape? ==> OnEvent(c, u, e, w).handled
    ensures e.Return? && !u.search.on ==> OnEvent(c, u, e, w).handled
    ensures e.Character? && (u.edit.on || u.actionEdit.on || u.search.on) ==> OnEvent(c, u, e, w).handled
  {
  }

  /** What is not for a row, a tab or a button does nothing while no mode is active: other characters in particular. */
  lemma OtherCharactersDoNothing(c: Config, u: Ui, ch: char, w: World)
    requires NoMode(u) && ch !in "qtsampf12 "
    ensures OnEvent(c, u, Character(ch, ""), w) == Outcome(u, false)
  {
  }
}
