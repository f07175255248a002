/** Log sessions with per-key update ratios: the controller, and the free-standing log_frame. */
module LogSessions {
  import opened Basics

  datatype Key = Key(iface: string, id: nat)

  /** A received frame; `body` stands for everything the ratio does not depend on. */
  datatype Frame = Frame(key: Key, time: int, body: nat)

  /** What is passed to the inner logger: the frame and the time since the last frame of its key. */
  datatype Entry = Entry(frame: Frame, ratio: Option<int>)

  function RatioOf(last: map<Key, int>, f: Frame): Option<int> {
    if f.key in last then Some(f.time - last[f.key]) else None
  }

  /** The entries for a list of frames, starting from the given table of timestamps. */
  function Entries(last: map<Key, int>, frames: seq<Frame>): (r: seq<Entry>)
    ensures |r| == |frames|
    decreases |frames|
  {
    if frames == [] then []
    else [Entry(frames[0], RatioOf(last, frames[0]))] + Entries(last[frames[0].key := frames[0].time], frames[1..])
  }

  function LastTimes(last: map<Key, int>, frames: seq<Frame>): map<Key, int>
    decreases |frames|
  {
    if frames == [] then last else LastTimes(last[frames[0].key := frames[0].time], frames[1..])
  }

  lemma {:induction false} EntriesAppend(last: map<Key, int>, frames: seq<Frame>, f: Frame)
    ensures Entries(last, frames + [f]) == Entries(last, frames) + [Entry(f, RatioOf(LastTimes(last, frames), f))]
    ensures LastTimes(last, frames + [f]) == LastTimes(last, frames)[f.key := f.time]
    decreases |frames|
  {
    if frames == [] {
      assert frames + [f] == [f] && [f][1..] == [];
    } else {
      assert (frames + [f])[1..] == frames[1..] + [f];
      EntriesAppend(last[frames[0].key := frames[0].time], frames[1..], f);
    }
  }

  // ----- The controller -----

  /** `files` are the closed logs, oldest first; `path` is the current file's name. */
  datatype State = State(active: bool, path: string, lastTs: map<Key, int>, current: seq<Entry>, files: seq<seq<Entry>>)

  const Idle := State(false, "", map[], [], [])

  datatype Event =
    | Start(path: string, opens: bool)   // `opens`: the file can be opened
    | Stop
    | LogFrame(frame: Frame)

  function Step(s: State, e: Event): State {
    match e
    case Start(path, opens) =>
      if s.active then s else s.(path := path, active := opens)
    case Stop =>
      State(false, "", map[], [], if s.active then s.files + [s.current] else s.files)
    case LogFrame(f) =>
      if !s.active then s
      else s.(lastTs := s.lastTs[f.key := f.time], current := s.current + [Entry(f, RatioOf(s.lastTs, f))])
  }

  class LogController {
    var active: bool
    var path: string
    var lastTs: map<Key, int>
    var current: seq<Entry>
    var files: seq<seq<Entry>>

    function Abstract(): State
      reads this
    {
      State(active, path, lastTs, current, files)
    }

    constructor ()
      ensures Abstract() == Idle
    {
      active, path, lastTs, current, files := false, "", map[], [], [];
    }

    /** The path is set before the file is opened; a failure to open throws with the path already set. */
    method Start(newPath: string, opens: bool) returns (thrown: bool)
      modifies this
      ensures Abstract() == Step(old(Abstract()), Event.Start(newPath, opens))
      ensures thrown <==> !old(active) && !opens
    {
      if active {
        return false;
      }
      path := newPath;
      if !opens {
        return true;
      }
      active := true;
      return false;
    }

    method Stop()
      modifies this
      ensures Abstract() == Step(old(Abstract()), Event.Stop)
    {
      if active {
        files := files + [current];
      }
      active := false;
      current := [];
      path := "";
      lastTs := map[];
    }

    method LogCanFrame(f: Frame)
      modifies this
      ensures Abstract() == Step(old(Abstract()), Event.LogFrame(f))
    {
      if !active {
        return;
      }
      var ratio := None;
      if f.key in lastTs {
        ratio := Some(f.time - lastTs[f.key]);
      }
      lastTs := lastTs[f.key := f.time];
      current := current + [Entry(f, ratio)];
    }
  }

  /** The second implementation: the caller owns the table of timestamps and the logger. */
  class FrameLog {
    var lastTs: map<Key, int>
    var out: seq<Entry>

    constructor ()
      ensures lastTs == map[] && out == []
    {
      lastTs, out := map[], [];
    }

    method LogFrame(f: Frame, hasLogger: bool)
      modifies this
      ensures !hasLogger ==> lastTs == old(lastTs) && out == old(out)
      ensures hasLogger ==> out == old(out) + [Entry(f, RatioOf(old(lastTs), f))]
      ensures hasLogger ==> lastTs == old(lastTs)[f.key := f.time]
    {
      if !hasLogger {
        return;
      }
      var ratio := if f.key in lastTs then Some(f.time - lastTs[f.key]) else None;
      lastTs := lastTs[f.key := f.time];
      out := out + [Entry(f, ratio)];
    }
  }

  /** log_frame on a fresh table writes exactly the entries of the list of frames. */
  method LogAll(frames: seq<Frame>) returns (out: seq<Entry>)
    ensures out == Entries(map[], frames)
  {
    var log := new FrameLog();
    for n := 0 to |frames|
      invariant fresh(log)
      invariant log.out == Entries(map[], frames[..n]) && log.lastTs == LastTimes(map[], frames[..n])
    {
      EntriesAppend(map[], frames[..n], frames[n]);
      assert frames[..n + 1] == frames[..n] + [frames[n]];
      log.LogFrame(frames[n], true);
    }
    assert frames[..|frames|] == frames;
    out := log.out;
  }

  // ----- Whole runs against a reference -----

  function Run(events: seq<Event>): State {
    if events == [] then Idle else Step(Run(events[..|events| - 1]), events[|events| - 1])
  }

  /** The frames of each session, cut from the events alone. */
  datatype Sessions = Sessions(closed: seq<seq<Frame>>, open: Option<seq<Frame>>)

  function Cut(events: seq<Event>): Sessions {
    if events == [] then Sessions([], None)
    else
      var before, e := Cut(events[..|events| - 1]), events[|events| - 1];
      match e
      case Start(_, opens) => if before.open.None? && opens then before.(open := Some([])) else before
      case Stop => if before.open.Some? then Sessions(before.closed + [before.open.value], None) else before
      case LogFrame(f) => if before.open.Some? then before.(open := Some(before.open.value + [f])) else before
  }

  /** The path that is shown while no log is open: that of an attempt that failed since the last stop. */
  function StalePath(events: seq<Event>): string {
    if events == [] then ""
    else
      var e := events[|events| - 1];
      var before := events[..|events| - 1];
      match e
      case Start(path, opens) => if Cut(before).open.None? && !opens then path else StalePath(before)
      case Stop => ""
      case LogFrame(_) => StalePath(before)
  }

  /**
    Whatever the order of start, stop and frames, every session's file holds
    what log_frame writes for that session's frames on a fresh table: no ratio
    spans two sessions, and repeated starts and stops change nothing.
   */
  lemma {:induction false} SessionsAreIndependent(events: seq<Event>)
    ensures var s, c := Run(events), Cut(events);
            && s.active == c.open.Some?
            && s.current == (if c.open.Some? then Entries(map[], c.open.value) else [])
            && s.lastTs == (if c.open.Some? then LastTimes(map[], c.open.value) else map[])
            && |s.files| == |c.closed|
            && forall i | 0 <= i < |s.files| :: s.files[i] == Entries(map[], c.closed[i])
  {
    if events != [] {
      var before, e := events[..|events| - 1], events[|events| - 1];
      SessionsAreIndependent(before);
      if e.LogFrame? && Cut(before).open.Some? {
        EntriesAppend(map[], Cut(before).open.value, e.frame);
      }
    }
  }

  /** While no log is open the shown path is that of the last attempt that failed since the last stop, and empty otherwise. */
  lemma {:induction false} PathWhileIdle(events: seq<Event>)
    ensures !Run(events).active ==> Run(events).path == StalePath(events)
  {
    if events != [] {
      var before := events[..|events| - 1];
      PathWhileIdle(before);
      SessionsAreIndependent(before);
    }
  }

  /** One failed start shows its path although nothing is being logged. */
  lemma FailedStartLeavesPath()
    ensures !Run([Start("run.mcap", false)]).active && Run([Start("run.mcap", false)]).path == "run.mcap"
  {
    var events := [Start("run.mcap", false)];
    assert events[..0] == [] && Run([]) == Idle;
  }

  /** The path of the start that opened the present log. */
  function OpenPath(events: seq<Event>): string {
    if events == [] then ""
    else
      var e := events[|events| - 1];
      var before := events[..|events| - 1];
      if e.Start? && e.opens && Cut(before).open.None? then e.path else OpenPath(before)
  }

  /** While a log is open the shown path is that of the start that opened it; later starts do not matter. */
  lemma {:induction false} PathWhileActive(events: seq<Event>)
    ensures Run(events).active ==> Run(events).path == OpenPath(events)
  {
    if events != [] {
      PathWhileActive(events[..|events| - 1]);
      SessionsAreIndependent(events[..|events| - 1]);
    }
  }

  /** Every frame is written, in order, and has a ratio if and only if there was one of its key before. */
  lemma {:induction false} EntriesMean(last: map<Key, int>, frames: seq<Frame>, i: nat)
    requires i < |frames|
    ensures var e := Entries(last, frames)[i];
            && e.frame == frames[i]
            && (e.ratio.None? <==> frames[i].key !in last && forall j | 0 <= j < i :: frames[j].key != frames[i].key)
    decreases |frames|
  {
    if i > 0 {
      EntriesMean(last[frames[0].key := frames[0].time], frames[1..], i - 1);
      assert forall j | 0 < j < i :: frames[1..][j - 1] == frames[j];
    }
  }

  /** That ratio is the time since the latest of them. */
  lemma {:induction false} RatioSinceLatest(last: map<Key, int>, frames: seq<Frame>, i: nat, j: nat)
    requires j < i < |frames| && frames[j].key == frames[i].key && forall k | j < k < i :: frames[k].key != frames[i].key
    ensures Entries(last, frames)[i].ratio == Some(frames[i].time - frames[j].time)
    decreases |frames|
  {
    var next := last[frames[0].key := frames[0].time];
    assert forall k | 0 < k < |frames| :: frames[1..][k - 1] == frames[k];
    if j == 0 {
      RatioOfFirst(next, frames[1..], i - 1);
    } else {
      RatioSinceLatest(next, frames[1..], i - 1, j - 1);
    }
  }

  lemma {:induction false} RatioOfFirst(last: map<Key, int>, frames: seq<Frame>, i: nat)
    requires i < |frames| && frames[i].key in last && forall k | 0 <= k < i :: frames[k].key != frames[i].key
    ensures Entries(last, frames)[i].ratio == Some(frames[i].time - last[frames[i].key])
    decreases |frames|
  {
    if i > 0 {
      RatioOfFirst(last[frames[0].key := frames[0].time], frames[1..], i - 1);
    }
  }

  // ----- Ratios -----

  /** The timestamps of the frames of one key, in order. */
  function TimesOf(frames: seq<Frame>, k: Key): seq<int> {
    if frames == [] then []
    else (if frames[0].key == k then [frames[0].time] else []) + TimesOf(frames[1..], k)
  }

  /** The ratios logged for one key, in order. */
  function RatiosOf(entries: seq<Entry>, k: Key): seq<int> {
    if entries == [] then []
    else (if entries[0].frame.key == k && entries[0].ratio.Some? then [entries[0].ratio.value] else [])
         + RatiosOf(entries[1..], k)
  }

  function Sum(s: seq<int>): int {
    if s == [] then 0 else s[0] + Sum(s[1..])
  }

  /** The timestamps of a key, preceded by the one already in the table. */
  function AllTimes(last: map<Key, int>, frames: seq<Frame>, k: Key): seq<int> {
    (if k in last then [last[k]] else []) + TimesOf(frames, k)
  }

  /** The steps between neighbours. */
  function Differences(times: seq<int>): (r: seq<int>)
    ensures |r| == if times == [] then 0 else |times| - 1
  {
    seq(if times == [] then 0 else |times| - 1, i requires 0 <= i < |times| - 1 => times[i + 1] - times[i])
  }

  lemma {:induction false} DifferencesTelescope(times: seq<int>)
    requires times != []
    ensures Sum(Differences(times)) == times[|times| - 1] - times[0]
  {
    if |times| > 1 {
      DifferencesTelescope(times[1..]);
      assert Differences(times)[1..] == Differences(times[1..]);
    }
  }

  lemma DifferencesPrepend(t: int, times: seq<int>)
    requires times != []
    ensures Differences([t] + times) == [times[0] - t] + Differences(times)
  {
  }

  /** A frame adds a step for its own key if that key has a timestamp, and nothing for any other. */
  lemma FirstFrame(last: map<Key, int>, frames: seq<Frame>, k: Key)
    requires frames != []
    ensures var f := frames[0];
            var next, steps := last[f.key := f.time], f.key == k && k in last;
            var times, ratios := AllTimes(next, frames[1..], k), RatiosOf(Entries(next, frames[1..]), k);
            && RatiosOf(Entries(last, frames), k) == (if steps then [f.time - last[k]] + ratios else ratios)
            && AllTimes(last, frames, k) == (if steps then [last[k]] + times else times)
            && (f.key == k ==> times != [] && times[0] == f.time)
  {
    var f, rest := frames[0], frames[1..];
    var next := last[f.key := f.time];
    var e := Entry(f, RatioOf(last, f));
    assert Entries(last, frames) == [e] + Entries(next, rest);
    FirstRatio(e, Entries(next, rest), k);
    assert TimesOf(frames, k) == if f.key == k then [f.time] + TimesOf(rest, k) else TimesOf(rest, k);
  }

  lemma FirstRatio(e: Entry, rest: seq<Entry>, k: Key)
    ensures RatiosOf([e] + rest, k) ==
            if e.frame.key == k && e.ratio.Some? then [e.ratio.value] + RatiosOf(rest, k) else RatiosOf(rest, k)
  {
    assert ([e] + rest)[1..] == rest;
  }

  lemma {:induction false} RatiosAreDifferences(last: map<Key, int>, frames: seq<Frame>, k: Key)
    ensures RatiosOf(Entries(last, frames), k) == Differences(AllTimes(last, frames, k))
    decreases |frames|
  {
    if frames != [] {
      var f := frames[0];
      var next := last[f.key := f.time];
      RatiosAreDifferences(next, frames[1..], k);
      FirstFrame(last, frames, k);
      if f.key == k && k in last {
        DifferencesPrepend(last[k], AllTimes(next, frames[1..], k));
      }
    }
  }

  lemma Telescoped(times: seq<int>, ratios: seq<int>)
    requires times != [] && ratios == Differences(times)
    ensures |ratios| == |times| - 1
    ensures forall i | 0 <= i < |ratios| :: ratios[i] == times[i + 1] - times[i]
    ensures Sum(ratios) == times[|times| - 1] - times[0]
  {
    DifferencesTelescope(times);
  }

  lemma RatiosFromScratch(frames: seq<Frame>, k: Key)
    ensures RatiosOf(Entries(map[], frames), k) == Differences(TimesOf(frames, k))
  {
    RatiosAreDifferences(map[], frames, k);
    assert AllTimes(map[], frames, k) == TimesOf(frames, k);
  }

  /**
    Within one session a key with n > 0 frames gets n - 1 ratios, each the step
    between two neighbouring timestamps, and together last minus first.
   */
  lemma SessionRatios(frames: seq<Frame>, k: Key)
    requires TimesOf(frames, k) != []
    ensures var times, ratios := TimesOf(frames, k), RatiosOf(Entries(map[], frames), k);
            && |ratios| == |times| - 1
            && (forall i | 0 <= i < |ratios| :: ratios[i] == times[i + 1] - times[i])
            && Sum(ratios) == times[|times| - 1] - times[0]
  {
    RatiosFromScratch(frames, k);
    Telescoped(TimesOf(frames, k), RatiosOf(Entries(map[], frames), k));
  }
}
