/** Per-interface run state and message filter of a playback. */
module PlaybackControl {

  /** A named switch. */
  datatype Item = Item(name: string, on: bool)

  /** The first item of that name decides; `default` where there is none. */
  function IsOn(items: seq<Item>, name: string, default: bool): bool {
    if items == [] then default
    else if items[0].name == name then items[0].on
    else IsOn(items[1..], name, default)
  }

  predicate AnyOn(items: seq<Item>) {
    exists i :: 0 <= i < |items| && items[i].on
  }

  /** The position of the first item of that name, or the number of items. */
  function Find(items: seq<Item>, name: string): (r: nat)
    ensures r <= |items|
    ensures r < |items| ==> items[r].name == name
    ensures forall i | 0 <= i < r :: items[i].name != name
  {
    if items == [] || items[0].name == name then 0 else 1 + Find(items[1..], name)
  }

  function Flip(items: seq<Item>, i: nat): seq<Item>
    requires i < |items|
  {
    items[i := items[i].(on := !items[i].on)]
  }

  function Toggled(items: seq<Item>, name: string): (r: seq<Item>)
    ensures |r| == |items|
  {
    var i := Find(items, name);
    if i < |items| then Flip(items, i) else items
  }

  /** Index 0 switches all items together, `n >= 1` switches the n-th. */
  function ToggledAt(items: seq<Item>, idx: nat): (r: seq<Item>)
    ensures |r| == |items|
  {
    if idx == 0 then
      var any := AnyOn(items);
      seq(|items|, i requires 0 <= i < |items| => items[i].(on := !any))
    else if idx - 1 < |items| then Flip(items, idx - 1)
    else items
  }

  lemma {:induction false} IsOnFind(items: seq<Item>, name: string, default: bool)
    ensures IsOn(items, name, default) ==
            if Find(items, name) < |items| then items[Find(items, name)].on else default
  {
    if items != [] && items[0].name != name {
      IsOnFind(items[1..], name, default);
    }
  }

  lemma FindToggled(items: seq<Item>, name: string, other: string)
    ensures Find(Toggled(items, name), other) == Find(items, other)
  {
    var t := Toggled(items, name);
    var i, j := Find(t, other), Find(items, other);
    assert i < |t| ==> items[i].name == other;
    assert j < |t| ==> t[j].name == other;
  }

  /** A toggle switches the named interface and no other, and a second toggle takes it back. */
  lemma ToggleSwitchesOne(items: seq<Item>, name: string, other: string, default: bool)
    ensures Find(items, name) < |items| ==> IsOn(Toggled(items, name), name, default) == !IsOn(items, name, default)
    ensures other != name ==> IsOn(Toggled(items, name), other, default) == IsOn(items, other, default)
    ensures Toggled(Toggled(items, name), name) == items
  {
    FindToggled(items, name, name);
    FindToggled(items, name, other);
    IsOnFind(items, name, default);
    IsOnFind(items, other, default);
    IsOnFind(Toggled(items, name), name, default);
    IsOnFind(Toggled(items, name), other, default);
  }

  class PlaybackController {
    var states: seq<Item>
    var stopped: bool
    var messages: map<string, seq<Item>>

    /** Every interface starts paused. */
    constructor (interfaces: seq<string>)
      ensures |states| == |interfaces|
      ensures forall i | 0 <= i < |interfaces| :: states[i] == Item(interfaces[i], false)
      ensures !stopped && messages == map[]
    {
      var list: seq<Item> := [];
      for n := 0 to |interfaces|
        invariant |list| == n
        invariant forall i | 0 <= i < n :: list[i] == Item(interfaces[i], false)
      {
        list := list + [Item(interfaces[n], false)];
      }
      states := list;
      stopped := false;
      messages := map[];
    }

    method IsRunning(iface: string) returns (r: bool)
      ensures r == IsOn(states, iface, false)
    {
      IsOnFind(states, iface, false);
      for i := 0 to |states|
        invariant forall j | 0 <= j < i :: states[j].name != iface
      {
        if states[i].name == iface {
          return states[i].on;
        }
      }
      return false;
    }

    method AnyRunning() returns (r: bool)
      ensures r == AnyOn(states)
    {
      for i := 0 to |states|
        invariant forall j | 0 <= j < i :: !states[j].on
      {
        if states[i].on {
          return true;
        }
      }
      return false;
    }

    method Toggle(iface: string)
      modifies this
      ensures states == Toggled(old(states), iface)
      ensures stopped == old(stopped) && messages == old(messages)
    {
      for i := 0 to |states|
        invariant states == old(states) && stopped == old(stopped) && messages == old(messages)
        invariant forall j | 0 <= j < i :: states[j].name != iface
      {
        if states[i].name == iface {
          states := states[i := states[i].(on := !states[i].on)];
          break;
        }
      }
    }

    method Stop()
      modifies this
      ensures stopped && states == old(states) && messages == old(messages)
    {
      stopped := true;
    }

    method SetMessages(iface: string, names: seq<string>)
      modifies this
      ensures states == old(states) && stopped == old(stopped)
      ensures messages.Keys == old(messages).Keys + {iface}
      ensures forall other | other in old(messages) && other != iface :: messages[other] == old(messages)[other]
      ensures |messages[iface]| == |names|
      ensures forall i | 0 <= i < |names| :: messages[iface][i] == Item(names[i], true)
    {
      var list: seq<Item> := [];
      for n := 0 to |names|
        invariant |list| == n
        invariant forall i | 0 <= i < n :: list[i] == Item(names[i], true)
      {
        list := list + [Item(names[n], true)];
      }
      messages := messages[iface := list];
    }

    method ToggleMessage(iface: string, idx: nat)
      modifies this
      ensures states == old(states) && stopped == old(stopped)
      ensures messages == if iface in old(messages) then old(messages)[iface := ToggledAt(old(messages)[iface], idx)]
                          else old(messages)
    {
      if iface !in messages {
        return;
      }
      var list := messages[iface];
      if idx == 0 {
        var any := false;
        for i := 0 to |list|
          invariant any <==> exists j :: 0 <= j < i && list[j].on
        {
          any := any || list[i].on;
        }
        var before := list;
        for i := 0 to |list|
          invariant |list| == |before|
          invariant forall j | 0 <= j < i :: list[j] == before[j].(on := !any)
          invariant forall j | i <= j < |list| :: list[j] == before[j]
        {
          list := list[i := list[i].(on := !any)];
        }
        assert list == ToggledAt(before, 0);
      } else {
        var i := idx - 1;
        if i < |list| {
          list := list[i := list[i].(on := !list[i].on)];
        }
      }
      messages := messages[iface := list];
    }

    method IsMessageEnabled(iface: string, name: string) returns (r: bool)
      ensures r == Passes(messages, iface, name)
    {
      if iface !in messages {
        return true;
      }
      var list := messages[iface];
      IsOnFind(list, name, true);
      for i := 0 to |list|
        invariant forall j | 0 <= j < i :: list[j].name != name
      {
        if list[i].name == name {
          return list[i].on;
        }
      }
      return true;
    }
  }

  /** A message passes the filter unless it is listed and switched off. */
  predicate Passes(messages: map<string, seq<Item>>, iface: string, name: string) {
    iface in messages ==> IsOn(messages[iface], name, true)
  }

  /** Switching all messages twice leaves them all enabled or all disabled, by the first state. */
  lemma ToggleAllTwice(items: seq<Item>)
    ensures forall i | 0 <= i < |items| :: ToggledAt(ToggledAt(items, 0), 0)[i] == items[i].(on := AnyOn(items))
  {
    if items != [] {
      var once := ToggledAt(items, 0);
      assert once[0].on == !AnyOn(items);
      assert AnyOn(once) == !AnyOn(items);
    }
  }

  /** The item is there, with no earlier one of its name. */
  predicate FirstEntry(items: seq<Item>, i: nat, item: Item)
    requires i < |items|
  {
    items[i] == item && forall j | 0 <= j < i :: items[j].name != item.name
  }

  /** A message is held back if and only if the interface lists it and its first entry is off. */
  lemma PassesMeans(messages: map<string, seq<Item>>, iface: string, name: string)
    ensures !Passes(messages, iface, name) <==>
            iface in messages && (exists i :: 0 <= i < |messages[iface]| && FirstEntry(messages[iface], i, Item(name, false)))
  {
    if iface in messages {
      var items := messages[iface];
      IsOnFind(items, name, true);
      var k := Find(items, name);
      assert k < |items| && !items[k].on ==> FirstEntry(items, k, Item(name, false));
    }
  }

  /** An interface runs if and only if it is listed and its first entry is on. */
  lemma RunsMeans(items: seq<Item>, name: string)
    ensures IsOn(items, name, false) <==>
            (exists i :: 0 <= i < |items| && FirstEntry(items, i, Item(name, true)))
  {
    IsOnFind(items, name, false);
    var k := Find(items, name);
    assert k < |items| && items[k].on ==> FirstEntry(items, k, Item(name, true));
  }

  /** A toggle by index: 0 switches all off if any is on and all on otherwise, n the n-th alone, beyond the end nothing. */
  lemma ToggledAtMeans(items: seq<Item>, idx: nat)
    ensures var r := ToggledAt(items, idx);
            forall i | 0 <= i < |items| ::
              && r[i].name == items[i].name
              && (idx == 0 ==> (r[i].on <==> forall j | 0 <= j < |items| :: !items[j].on))
              && (idx > 0 ==> (r[i].on == if i + 1 == idx then !items[i].on else items[i].on))
  {
  }
}
