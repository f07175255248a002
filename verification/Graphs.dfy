/** Graph tabs and the bounded sample windows of their series. */
module Graphs {
  import opened Basics

  const MAX: nat := 10000

  datatype Key = Key(iface: string, msgId: nat, signal: string)

  datatype Series = Series(key: Key, axis: int, xs: seq<real>, ys: seq<real>)

  datatype Tab = Tab(name: string, series: seq<Series>)

  datatype Decoded = Decoded(name: string, value: real)

  datatype Sample = Sample(t: real, v: real)

  datatype Event =
    | Frame(iface: string, id: nat, t: real, decoded: seq<Decoded>)
    | Value(iface: string, signal: string, t: real, v: real)
    | AddGraph(name: string)
    | AddSignal(tab: nat, key: Key, axis: int)
    | RemoveSignal(tab: nat, index: nat)
    | SetAxis(tab: nat, index: nat, axis: int)

  // ----- One series -----

  /** Appends a sample and drops the oldest beyond the bound. */
  function Pushed(s: Series, t: real, v: real): Series {
    var xs, ys := s.xs + [t], s.ys + [v];
    if |xs| > MAX && |ys| > 0 then s.(xs := xs[1..], ys := ys[1..]) else s.(xs := xs, ys := ys)
  }

  function FirstValue(decoded: seq<Decoded>, name: string): Option<real> {
    if decoded == [] then None
    else if decoded[0].name == name then Some(decoded[0].value)
    else FirstValue(decoded[1..], name)
  }

  /** The sample an event brings to a series of that key. */
  function SampleOf(k: Key, e: Event): Option<Sample> {
    match e
    case Frame(iface, id, t, decoded) =>
      if k.iface == iface && k.msgId == id && FirstValue(decoded, k.signal).Some?
      then Some(Sample(t, FirstValue(decoded, k.signal).value)) else None
    case Value(iface, signal, t, v) =>
      if k.iface == iface && k.msgId == 0 && k.signal == signal then Some(Sample(t, v)) else None
    case _ => None
  }

  function Fed(s: Series, e: Event): Series {
    var x := SampleOf(s.key, e);
    if x.Some? then Pushed(s, x.value.t, x.value.v) else s
  }

  // ----- One tab -----

  function FedAll(series: seq<Series>, e: Event): (r: seq<Series>)
    ensures |r| == |series|
  {
    seq(|series|, i requires 0 <= i < |series| => Fed(series[i], e))
  }

  /** Feeds only the first series that matches. */
  function FedFirst(series: seq<Series>, e: Event): (r: seq<Series>)
    ensures |r| == |series|
  {
    if series == [] then []
    else if SampleOf(series[0].key, e).Some? then [Fed(series[0], e)] + series[1..]
    else [series[0]] + FedFirst(series[1..], e)
  }

  lemma FirstMatch(series: seq<Series>, e: Event, i: nat)
    requires i < |series| && SampleOf(series[i].key, e).Some?
    ensures series[..i] + FedFirst(series[i..], e) == series[i := Fed(series[i], e)]
  {
    assert FedFirst(series[i..], e) == [Fed(series[i], e)] + series[i..][1..];
  }

  lemma FirstMiss(series: seq<Series>, e: Event, i: nat)
    requires i < |series| && SampleOf(series[i].key, e).None?
    ensures series[..i] + FedFirst(series[i..], e) == series[..i + 1] + FedFirst(series[i + 1..], e)
  {
    assert series[i..][1..] == series[i + 1..];
    assert FedFirst(series[i..], e) == [series[i]] + FedFirst(series[i + 1..], e);
  }

  predicate UniqueKeys(series: seq<Series>) {
    forall i, j | 0 <= i < j < |series| :: series[i].key != series[j].key
  }

  /** Stopping at the first match loses nothing, because the keys of a tab are unique. */
  lemma {:induction false} FirstIsAll(series: seq<Series>, e: Event)
    requires UniqueKeys(series) && e.Value?
    ensures FedFirst(series, e) == FedAll(series, e)
  {
    if series != [] {
      FirstIsAll(series[1..], e);
      if SampleOf(series[0].key, e).Some? {
        forall i | 0 < i < |series| ensures SampleOf(series[i].key, e).None? {
          assert series[i].key != series[0].key;
        }
      }
      assert FedAll(series[1..], e) == FedAll(series, e)[1..];
    }
  }

  predicate HasKey(series: seq<Series>, k: Key) {
    exists i :: 0 <= i < |series| && series[i].key == k
  }

  function SetAxisAt(series: seq<Series>, i: nat, axis: int): seq<Series>
    requires i < |series|
  {
    series[i := series[i].(axis := axis)]
  }

  // ----- The window -----

  /** A number in decimal. */
  function Numeral(n: nat): (s: string)
    ensures |s| > 0
  {
    if n < 10 then ["0123456789"[n]] else Numeral(n / 10) + ["0123456789"[n % 10]]
  }

  function FeedTabs(graphs: seq<Tab>, e: Event): (r: seq<Tab>)
    ensures |r| == |graphs|
  {
    seq(|graphs|, i requires 0 <= i < |graphs| =>
      graphs[i].(series := if e.Frame? then FedAll(graphs[i].series, e) else FedFirst(graphs[i].series, e)))
  }

  function Step(graphs: seq<Tab>, e: Event): seq<Tab> {
    match e
    case AddGraph(name) => graphs + [Tab(if name == "" then "graph" + Numeral(|graphs| + 1) else name, [])]
    case AddSignal(t, k, axis) =>
      if t >= |graphs| then graphs else graphs[t := graphs[t].(series := Added(graphs[t].series, k, axis))]
    case RemoveSignal(t, i) =>
      if t >= |graphs| || i >= |graphs[t].series| then graphs
      else graphs[t := graphs[t].(series := Removed(graphs[t].series, i))]
    case SetAxis(t, i, axis) =>
      if t >= |graphs| || i >= |graphs[t].series| then graphs
      else graphs[t := graphs[t].(series := SetAxisAt(graphs[t].series, i, axis))]
    case _ => FeedTabs(graphs, e)
  }

  class GraphWindow {
    var graphs: seq<Tab>

    constructor ()
      ensures graphs == []
    {
      graphs := [];
    }

    method PushTo(tab: nat, i: nat, t: real, v: real)
      requires tab < |graphs| && i < |graphs[tab].series|
      modifies this
      ensures graphs == old(graphs)[tab := old(graphs)[tab].(series :=
                          old(graphs)[tab].series[i := Pushed(old(graphs)[tab].series[i], t, v)])]
    {
      var s := graphs[tab].series[i];
      s := s.(xs := s.xs + [t]);
      s := s.(ys := s.ys + [v]);
      if |s.xs| > MAX {
        s := s.(xs := s.xs[1..]);
        s := s.(ys := s.ys[1..]);
      }
      graphs := graphs[tab := graphs[tab].(series := graphs[tab].series[i := s])];
    }

    method Update(iface: string, id: nat, t: real, decoded: seq<Decoded>)
      modifies this
      ensures graphs == Step(old(graphs), Frame(iface, id, t, decoded))
    {
      ghost var e := Frame(iface, id, t, decoded);
      for tab := 0 to |graphs|
        invariant |graphs| == |old(graphs)|
        invariant forall j | 0 <= j < tab :: graphs[j] == FeedTabs(old(graphs), e)[j]
        invariant forall j | tab <= j < |graphs| :: graphs[j] == old(graphs)[j]
      {
        ghost var before := graphs[tab];
        for i := 0 to |graphs[tab].series|
          invariant |graphs| == |old(graphs)| && |graphs[tab].series| == |before.series|
          invariant graphs[tab] == before.(series := graphs[tab].series)
          invariant forall j | 0 <= j < i :: graphs[tab].series[j] == Fed(before.series[j], e)
          invariant forall j | i <= j < |before.series| :: graphs[tab].series[j] == before.series[j]
          invariant forall j | 0 <= j < tab :: graphs[j] == FeedTabs(old(graphs), e)[j]
          invariant forall j | tab < j < |graphs| :: graphs[j] == old(graphs)[j]
        {
          var s := graphs[tab].series[i];
          if s.key.iface != iface || s.key.msgId != id {
            continue;
          }
          var found := FindSignal(decoded, s.key.signal);
          if found.Some? {
            PushTo(tab, i, t, found.value);
          }
        }
        assert graphs[tab].series == FedAll(before.series, e);
      }
      assert graphs == FeedTabs(old(graphs), e);
    }

    /** The inner loop: push to the first matching series of one tab, then stop. */
    method PushInTab(tab: nat, iface: string, signal: string, t: real, v: real)
      requires tab < |graphs|
      modifies this
      ensures graphs == old(graphs)[tab := old(graphs)[tab].(series :=
                          FedFirst(old(graphs)[tab].series, Value(iface, signal, t, v)))]
    {
      ghost var e, before := Value(iface, signal, t, v), graphs[tab].series;
      for i := 0 to |graphs[tab].series|
        invariant graphs == old(graphs)
        invariant FedFirst(before, e) == before[..i] + FedFirst(before[i..], e)
      {
        var s := graphs[tab].series[i];
        if s.key.iface == iface && s.key.msgId == 0 && s.key.signal == signal {
          PushTo(tab, i, t, v);
          FirstMatch(before, e, i);
          return;
        }
        FirstMiss(before, e, i);
      }
      assert before[..|before|] == before && before[|before|..] == [];
      assert FedFirst(before, e) == before;
      assert graphs[tab] == graphs[tab].(series := before);
    }

    method PushValue(iface: string, signal: string, t: real, v: real)
      modifies this
      ensures graphs == Step(old(graphs), Value(iface, signal, t, v))
    {
      ghost var e := Value(iface, signal, t, v);
      for tab := 0 to |graphs|
        invariant |graphs| == |old(graphs)|
        invariant forall j | 0 <= j < tab :: graphs[j] == FeedTabs(old(graphs), e)[j]
        invariant forall j | tab <= j < |graphs| :: graphs[j] == old(graphs)[j]
      {
        PushInTab(tab, iface, signal, t, v);
      }
      assert graphs == FeedTabs(old(graphs), e);
    }

    method AddGraph(name: string) returns (index: nat)
      modifies this
      ensures graphs == Step(old(graphs), Event.AddGraph(name)) && index == |old(graphs)|
    {
      var title := name;
      if title == "" {
        title := "graph" + Numeral(|graphs| + 1);
      }
      graphs := graphs + [Tab(title, [])];
      return |graphs| - 1;
    }

    method AddSignal(tab: nat, k: Key, axis: int)
      modifies this
      ensures graphs == Step(old(graphs), Event.AddSignal(tab, k, axis))
    {
      if tab >= |graphs| {
        return;
      }
      for i := 0 to |graphs[tab].series|
        invariant graphs == old(graphs)
        invariant forall j | 0 <= j < i :: graphs[tab].series[j].key != k
      {
        if graphs[tab].series[i].key == k {
          assert graphs[tab] == graphs[tab].(series := Added(graphs[tab].series, k, axis));
          return;
        }
      }
      graphs := graphs[tab := graphs[tab].(series := graphs[tab].series + [Series(k, axis, [], [])])];
    }

    method ChangeSeries(tab: nat, i: nat, remove: bool, axis: int)
      modifies this
      ensures graphs == Step(old(graphs), if remove then RemoveSignal(tab, i) else SetAxis(tab, i, axis))
    {
      if tab < |graphs| && i < |graphs[tab].series| {
        var series := graphs[tab].series;
        if remove {
          series := series[..i] + series[i + 1..];
        } else {
          series := series[i := series[i].(axis := axis)];
        }
        graphs := graphs[tab := graphs[tab].(series := series)];
      }
    }
  }

  method FindSignal(decoded: seq<Decoded>, name: string) returns (r: Option<real>)
    ensures r == FirstValue(decoded, name)
  {
    for i := 0 to |decoded|
      invariant FirstValue(decoded, name) == FirstValue(decoded[i..], name)
    {
      if decoded[i].name == name {
        return Some(decoded[i].value);
      }
      assert decoded[i..][1..] == decoded[i + 1..];
    }
    return None;
  }

  // ----- Whole histories -----

  function Run(events: seq<Event>): seq<Tab> {
    if events == [] then [] else Step(Run(events[..|events| - 1]), events[|events| - 1])
  }

  /** All samples brought to the key in that tab since it was last added; None while it is not there. */
  function Samples(events: seq<Event>, tab: nat, k: Key): Option<seq<Sample>> {
    if events == [] then None
    else
      var e, before := events[|events| - 1], events[..|events| - 1];
      var all := Samples(before, tab, k);
      match e
      case AddSignal(t, k', _) => if t == tab && k' == k && tab < |Run(before)| && all.None? then Some([]) else all
      case RemoveSignal(t, i) =>
        if t == tab && tab < |Run(before)| && i < |Run(before)[tab].series| && Run(before)[tab].series[i].key == k
        then None else all
      case _ =>
        if all.Some? && SampleOf(k, e).Some? then Some(all.value + [SampleOf(k, e).value]) else all
  }

  function Times(s: seq<Sample>): (r: seq<real>)
    ensures |r| == |s|
  {
    seq(|s|, i requires 0 <= i < |s| => s[i].t)
  }

  function Values(s: seq<Sample>): (r: seq<real>)
    ensures |r| == |s|
  {
    seq(|s|, i requires 0 <= i < |s| => s[i].v)
  }

  function Latest(s: seq<real>, n: nat): seq<real> {
    if |s| > n then s[|s| - n..] else s
  }

  /** The series holds the latest samples of its history. */
  predicate Holds(s: Series, all: seq<Sample>) {
    s.xs == Latest(Times(all), MAX) && s.ys == Latest(Values(all), MAX)
  }

  lemma PushedHolds(s: Series, all: seq<Sample>, x: Sample)
    requires Holds(s, all)
    ensures Holds(Pushed(s, x.t, x.v), all + [x])
  {
    assert Times(all + [x]) == Times(all) + [x.t];
    assert Values(all + [x]) == Values(all) + [x.v];
  }

  /** Every series of the tab holds its history, and the tab has no other keys than those with a history. */
  ghost predicate TabInv(series: seq<Series>, events: seq<Event>, tab: nat) {
    && UniqueKeys(series)
    && (forall i | 0 <= i < |series| :: Samples(events, tab, series[i].key).Some? &&
                                        Holds(series[i], Samples(events, tab, series[i].key).value))
    && (forall k | Samples(events, tab, k).Some? :: HasKey(series, k))
  }

  lemma SamplesAfterFeed(before: seq<Event>, e: Event, tab: nat, k: Key)
    requires e.Frame? || e.Value?
    ensures Samples(before + [e], tab, k) ==
            if Samples(before, tab, k).Some? && SampleOf(k, e).Some?
            then Some(Samples(before, tab, k).value + [SampleOf(k, e).value]) else Samples(before, tab, k)
  {
    assert (before + [e])[..|before|] == before;
  }

  lemma FedHolds(s: Series, e: Event, before: seq<Event>, tab: nat)
    requires e.Frame? || e.Value?
    requires Samples(before, tab, s.key).Some? && Holds(s, Samples(before, tab, s.key).value)
    ensures Fed(s, e).key == s.key
    ensures Samples(before + [e], tab, s.key).Some? && Holds(Fed(s, e), Samples(before + [e], tab, s.key).value)
  {
    SamplesAfterFeed(before, e, tab, s.key);
    if SampleOf(s.key, e).Some? {
      PushedHolds(s, Samples(before, tab, s.key).value, SampleOf(s.key, e).value);
    }
  }

  lemma FedKeeps(series: seq<Series>, before: seq<Event>, e: Event, tab: nat)
    requires TabInv(series, before, tab) && (e.Frame? || e.Value?)
    ensures TabInv(FedAll(series, e), before + [e], tab)
  {
    var after := FedAll(series, e);
    forall i | 0 <= i < |after|
      ensures after[i].key == series[i].key
      ensures Samples(before + [e], tab, after[i].key).Some? && Holds(after[i], Samples(before + [e], tab, after[i].key).value)
    {
      FedHolds(series[i], e, before, tab);
    }
    forall k | Samples(before + [e], tab, k).Some? ensures HasKey(after, k) {
      SamplesAfterFeed(before, e, tab, k);
      var i :| 0 <= i < |series| && series[i].key == k;
      assert after[i].key == k;
    }
  }

  /** A key that is already there is not added again. */
  function Added(series: seq<Series>, k: Key, axis: int): seq<Series> {
    if HasKey(series, k) then series else series + [Series(k, axis, [], [])]
  }

  lemma AddedSeries(series: seq<Series>, k: Key, axis: int)
    requires UniqueKeys(series)
    ensures UniqueKeys(Added(series, k, axis))
    ensures forall k' :: HasKey(Added(series, k, axis), k') <==> HasKey(series, k') || k' == k
  {
    var after := Added(series, k, axis);
    forall k' ensures HasKey(after, k') <==> HasKey(series, k') || k' == k {
      if HasKey(series, k') {
        var i :| 0 <= i < |series| && series[i].key == k';
        assert after[i].key == k';
      } else if k' == k {
        assert after[|series|].key == k;
      }
    }
  }

  lemma SamplesAfterAdd(before: seq<Event>, e: Event, tab: nat, k: Key)
    requires e.AddSignal? && e.tab == tab && tab < |Run(before)|
    ensures Samples(before + [e], tab, k) ==
            if k == e.key && Samples(before, tab, k).None? then Some([]) else Samples(before, tab, k)
  {
    assert (before + [e])[..|before|] == before;
  }

  lemma AddKeeps(series: seq<Series>, before: seq<Event>, e: Event, tab: nat)
    requires TabInv(series, before, tab) && e.AddSignal? && e.tab == tab && tab < |Run(before)|
    ensures TabInv(Added(series, e.key, e.axis), before + [e], tab)
  {
    var after := Added(series, e.key, e.axis);
    AddedSeries(series, e.key, e.axis);
    forall k ensures Samples(before + [e], tab, k) ==
                     if k == e.key && Samples(before, tab, k).None? then Some([]) else Samples(before, tab, k)
    {
      SamplesAfterAdd(before, e, tab, k);
    }
    forall i | 0 <= i < |after|
      ensures Samples(before + [e], tab, after[i].key).Some? && Holds(after[i], Samples(before + [e], tab, after[i].key).value)
    {
      if i < |series| {
        assert after[i] == series[i];
      } else {
        assert Samples(before, tab, e.key).None?;
        assert Times([]) == [] && Values([]) == [];
      }
    }
  }

  function Removed(series: seq<Series>, i: nat): seq<Series>
    requires i < |series|
  {
    series[..i] + series[i + 1..]
  }

  lemma RemovedSeries(series: seq<Series>, i: nat)
    requires UniqueKeys(series) && i < |series|
    ensures UniqueKeys(Removed(series, i))
    ensures forall k :: HasKey(Removed(series, i), k) <==> HasKey(series, k) && k != series[i].key
    ensures forall j | 0 <= j < |Removed(series, i)| :: Removed(series, i)[j] == series[if j < i then j else j + 1]
  {
    var after := Removed(series, i);
    forall k ensures HasKey(after, k) <==> HasKey(series, k) && k != series[i].key {
      if HasKey(series, k) && k != series[i].key {
        var j :| 0 <= j < |series| && series[j].key == k;
        assert after[if j < i then j else j - 1].key == k;
      }
    }
  }

  lemma SamplesAfterRemove(before: seq<Event>, e: Event, tab: nat, k: Key)
    requires e.RemoveSignal? && e.tab == tab && tab < |Run(before)| && e.index < |Run(before)[tab].series|
    ensures Samples(before + [e], tab, k) ==
            if k == Run(before)[tab].series[e.index].key then None else Samples(before, tab, k)
  {
    assert (before + [e])[..|before|] == before;
  }

  lemma RemoveKeeps(series: seq<Series>, before: seq<Event>, e: Event, tab: nat)
    requires TabInv(series, before, tab) && e.RemoveSignal? && e.tab == tab && tab < |Run(before)|
    requires Run(before)[tab].series == series && e.index < |series|
    ensures TabInv(Removed(series, e.index), before + [e], tab)
  {
    var after := Removed(series, e.index);
    RemovedSeries(series, e.index);
    forall k ensures Samples(before + [e], tab, k) ==
                     if k == series[e.index].key then None else Samples(before, tab, k)
    {
      SamplesAfterRemove(before, e, tab, k);
    }
    forall i | 0 <= i < |after|
      ensures Samples(before + [e], tab, after[i].key).Some? && Holds(after[i], Samples(before + [e], tab, after[i].key).value)
    {
      assert HasKey(after, after[i].key);
    }
  }

  /** An event that brings this tab no sample and changes none of its keys. */
  lemma OtherKeeps(series: seq<Series>, after: seq<Series>, before: seq<Event>, e: Event, tab: nat)
    requires TabInv(series, before, tab) && |after| == |series|
    requires forall i | 0 <= i < |series| :: after[i] == series[i].(axis := after[i].axis)
    requires forall k :: Samples(before + [e], tab, k) == Samples(before, tab, k)
    ensures TabInv(after, before + [e], tab)
  {
    forall k | Samples(before + [e], tab, k).Some? ensures HasKey(after, k) {
      assert Samples(before, tab, k).Some?;
      var i :| 0 <= i < |series| && series[i].key == k;
      assert after[i].key == k;
    }
  }

  lemma StepKeeps(before: seq<Event>, e: Event, tab: nat)
    requires tab < |Run(before)| ==> TabInv(Run(before)[tab].series, before, tab)
    requires tab >= |Run(before)| ==> forall k :: Samples(before, tab, k).None?
    ensures var after := Run(before + [e]);
            if tab < |after| then TabInv(after[tab].series, before + [e], tab)
            else forall k :: Samples(before + [e], tab, k).None?
  {
    assert (before + [e])[..|before|] == before;
    var graphs, after := Run(before), Run(before + [e]);
    if tab < |graphs| {
      var series := graphs[tab].series;
      if e.Frame? || e.Value? {
        FedKeeps(series, before, e, tab);
        if e.Value? {
          FirstIsAll(series, e);
        }
      } else if e.AddSignal? && e.tab == tab {
        AddKeeps(series, before, e, tab);
      } else if e.RemoveSignal? && e.tab == tab && e.index < |series| {
        RemoveKeeps(series, before, e, tab);
      } else {
        OtherKeeps(series, after[tab].series, before, e, tab);
      }
    }
  }

  lemma {:induction false} RunKeeps(events: seq<Event>, tab: nat)
    ensures if tab < |Run(events)| then TabInv(Run(events)[tab].series, events, tab)
            else forall k :: Samples(events, tab, k).None?
  {
    if events != [] {
      var n := |events| - 1;
      RunKeeps(events[..n], tab);
      StepKeeps(events[..n], events[n], tab);
      assert events[..n] + [events[n]] == events;
    }
  }

  /**
    After any history the keys of a tab are unique, a key has a series if and
    only if it was added and not removed since, and each series holds exactly
    the latest 10000 samples of its history since it was last added.
   */
  lemma SeriesHoldLatestSamples(events: seq<Event>, tab: nat)
    requires tab < |Run(events)|
    ensures var series := Run(events)[tab].series;
            && UniqueKeys(series)
            && (forall k :: HasKey(series, k) <==> Samples(events, tab, k).Some?)
            && (forall i | 0 <= i < |series| ::
                  var all := Samples(events, tab, series[i].key);
                  && all.Some?
                  && series[i].xs == Latest(Times(all.value), 10000)
                  && series[i].ys == Latest(Values(all.value), 10000))
  {
    RunKeeps(events, tab);
  }

  // ----- What an event is about -----

  /** The first entry of that name in a frame. */
  predicate FirstNamed(decoded: seq<Decoded>, i: nat, name: string)
    requires i < |decoded|
  {
    decoded[i].name == name && forall j | 0 <= j < i :: decoded[j].name != name
  }

  lemma {:induction false} FirstValueMeans(decoded: seq<Decoded>, name: string)
    ensures FirstValue(decoded, name).None? <==> forall i | 0 <= i < |decoded| :: decoded[i].name != name
    ensures forall i: nat | i < |decoded| && FirstNamed(decoded, i, name) :: FirstValue(decoded, name) == Some(decoded[i].value)
  {
    if decoded != [] && decoded[0].name != name {
      FirstValueMeans(decoded[1..], name);
      forall i: nat | i < |decoded| && FirstNamed(decoded, i, name) ensures FirstValue(decoded, name) == Some(decoded[i].value) {
        assert FirstNamed(decoded[1..], i - 1, name);
      }
      assert forall i | 0 < i < |decoded| :: decoded[1..][i - 1] == decoded[i];
    }
  }

  /**
    A frame brings a sample to the keys of its interface and id whose signal it
    carries, with its time and the first value of that name; a model output to
    the keys of its interface and name with id 0.
   */
  lemma SampleMeans(k: Key, e: Event)
    ensures e.Frame? ==>
              (SampleOf(k, e).Some? <==> k.iface == e.iface && k.msgId == e.id && exists i :: 0 <= i < |e.decoded| && e.decoded[i].name == k.signal)
    ensures e.Frame? && k.iface == e.iface && k.msgId == e.id ==>
              forall i: nat | i < |e.decoded| && FirstNamed(e.decoded, i, k.signal) ::
                SampleOf(k, e) == Some(Sample(e.t, e.decoded[i].value))
    ensures e.Value? ==>
              SampleOf(k, e) == if k == Key(e.iface, 0, e.signal) then Some(Sample(e.t, e.v)) else None
    ensures !e.Frame? && !e.Value? ==> SampleOf(k, e).None?
  {
    if e.Frame? {
      FirstValueMeans(e.decoded, k.signal);
    }
  }

  /** The events of the user change one tab: a new one, a new empty series, an axis, or one series less; frames and values change samples only. */
  lemma StepMeans(graphs: seq<Tab>, e: Event)
    ensures var r := Step(graphs, e);
            match e
            case AddGraph(name) =>
              && |r| == |graphs| + 1 && r[..|graphs|] == graphs && r[|graphs|].series == []
              && (name != "" ==> r[|graphs|].name == name)
            case AddSignal(t, k, axis) =>
              if t < |graphs| && !HasKey(graphs[t].series, k)
              then |r| == |graphs| && (forall j | 0 <= j < |r| && j != t :: r[j] == graphs[j])
                   && r[t] == graphs[t].(series := graphs[t].series + [Series(k, axis, [], [])])
              else r == graphs
            case RemoveSignal(t, i) =>
              if t < |graphs| && i < |graphs[t].series|
              then |r| == |graphs| && (forall j | 0 <= j < |r| && j != t :: r[j] == graphs[j])
                   && r[t] == graphs[t].(series := graphs[t].series[..i] + graphs[t].series[i + 1..])
              else r == graphs
            case SetAxis(t, i, axis) =>
              if t < |graphs| && i < |graphs[t].series|
              then |r| == |graphs| && (forall j | 0 <= j < |r| && j != t :: r[j] == graphs[j])
                   && r[t] == graphs[t].(series := graphs[t].series[i := graphs[t].series[i].(axis := axis)])
              else r == graphs
            case _ =>
              |r| == |graphs| && forall j | 0 <= j < |r| ::
                r[j].name == graphs[j].name && |r[j].series| == |graphs[j].series| &&
                SameSeries(r[j].series, graphs[j].series)
  {
    if e.AddSignal? && e.tab < |graphs| && HasKey(graphs[e.tab].series, e.key) {
      assert graphs[e.tab] == graphs[e.tab].(series := Added(graphs[e.tab].series, e.key, e.axis));
    }
    if e.Value? {
      forall j | 0 <= j < |graphs| ensures SameSeries(FedFirst(graphs[j].series, e), graphs[j].series) {
        FedFirstKeeps(graphs[j].series, e);
      }
    }
  }

  /** A tab without a name is called after its number, counting from one. */
  lemma UnnamedTab(graphs: seq<Tab>)
    ensures var r := Step(graphs, AddGraph(""));
            |r| == |graphs| + 1 && r[|r| - 1].name == "graph" + Numeral(|r|)
  {
  }

  predicate SameSeries(a: seq<Series>, b: seq<Series>) {
    |a| == |b| && forall i | 0 <= i < |a| :: a[i].key == b[i].key && a[i].axis == b[i].axis
  }

  lemma {:induction false} FedFirstKeeps(series: seq<Series>, e: Event)
    ensures SameSeries(FedFirst(series, e), series)
  {
    if series != [] && SampleOf(series[0].key, e).None? {
      FedFirstKeeps(series[1..], e);
    }
  }

  /** The value of decimal digits. */
  function ValueOf(s: string): nat {
    if s == "" then 0 else 10 * ValueOf(s[..|s| - 1]) + (if '0' <= s[|s| - 1] <= '9' then s[|s| - 1] as nat - '0' as nat else 0)
  }

  /** The name of an unnamed tab ends in its number, in decimal without leading zeros. */
  lemma {:induction false} NumeralMeans(n: nat)
    ensures ValueOf(Numeral(n)) == n && (n > 0 ==> Numeral(n)[0] != '0')
    ensures forall i | 0 <= i < |Numeral(n)| :: '0' <= Numeral(n)[i] <= '9'
  {
    if n >= 10 {
      NumeralMeans(n / 10);
      DigitMeans(n % 10);
      assert Numeral(n)[..|Numeral(n)| - 1] == Numeral(n / 10);
    } else {
      DigitMeans(n);
      assert Numeral(n)[..0] == "";
    }
  }

  lemma DigitMeans(d: nat)
    requires d < 10
    ensures var ch := "0123456789"[d]; '0' <= ch <= '9' && ch as nat - '0' as nat == d && (d > 0 ==> ch != '0')
  {
  }
}
