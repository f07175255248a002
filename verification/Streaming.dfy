/**
  The frame-streaming service as interleaved steps of three kinds of thread: the
  one that broadcasts, the one that shuts down, and one Subscribe handler per
  subscriber. Every step is one critical section or one access of a shared
  atomic; locks that are held across steps appear in the state.
 */
module Streaming {
  import opened Basics

  datatype Frame = Frame(iface: string, id: nat, dlc: nat, data: seq<bv8>, stamp: int)

  datatype Party = Broadcaster | Stopper | Handler(sub: nat)

  /** Where a Subscribe handler is; `Test` to `Pop` run under the subscriber's mutex. */
  datatype Pc =
    | New                    // before registration
    | Outer                  // reading `done` in the outer loop
    | Locking                // acquiring the subscriber's mutex
    | Test                   // evaluating the wait predicate
    | Parking                // predicate was false, not yet blocked
    | Parked                 // blocked on the condition variable
    | Inner                  // condition of the inner loop
    | Pop                    // taking the front of the queue
    | Writing(frame: Frame)  // in `Write`, without the mutex
    | Relocking              // acquiring the mutex again
    | Leaving                // before removal from the list
    | Exited

  /**
    A subscriber and its handler. `written`, `failed`, `regAt`, `endAt`,
    `doneAt` and `missed` only record history: the frames written, the frame
    whose write failed, how many frames had been broadcast at registration and
    at removal, how many frames had been written when `done` was set, and
    whether a shutdown notified the handler while it was about to block.
   */
  datatype Sub = Sub(filter: string, queue: seq<Frame>, lock: Option<Party>, done: bool, woken: bool, pc: Pc,
                     written: seq<Frame>, failed: Option<Frame>, regAt: nat, endAt: nat, doneAt: nat, missed: bool)

  datatype Broadcast = Idle | Loop(frame: Frame, i: nat) | Hold(frame: Frame, i: nat)

  datatype Shutdown = Quiet | Mark(i: nat) | Notify(i: nat)

  datatype Server = Server(list: seq<nat>, lock: Option<Party>, subs: map<nat, Sub>,
                           bc: Broadcast, sd: Shutdown, sent: seq<Frame>)

  datatype Action =
    | Begin(frame: Frame)              // broadcast() is called and takes the list mutex
    | Visit                            // next subscriber: skip it, lock it, or finish
    | Push                             // enqueue, notify, unlock
    | BeginShutdown
    | SetDone                          // next subscriber: set `done`, or finish
    | NotifyDone
    | Open(sub: nat, filter: string)   // a Subscribe call arrives
    | Step(sub: nat, ok: bool)         // next step of a handler; `ok` is the result of a write
    | Spurious(sub: nat)               // a spurious wake-up

  const Empty := Server([], None, map[], Idle, Quiet, [])

  predicate Wants(filter: string, f: Frame) {
    filter == "" || filter == f.iface
  }

  // ----- Steps -----

  predicate Enabled(s: Server, a: Action) {
    match a
    case Begin(_) => s.bc.Idle? && s.lock.None?
    case Visit => s.bc.Loop? && (s.bc.i < |s.list| && s.list[s.bc.i] in s.subs ==>
                                   var sub := s.subs[s.list[s.bc.i]];
                                   Wants(sub.filter, s.bc.frame) ==> sub.lock.None?)
    case Push => s.bc.Hold? && s.bc.i < |s.list|
    case BeginShutdown => s.sd.Quiet? && s.lock.None?
    case SetDone => s.sd.Mark?
    case NotifyDone => s.sd.Notify? && s.sd.i < |s.list|
    case Open(id, _) => id !in s.subs
    case Step(id, _) => id in s.subs && HandlerEnabled(s, s.subs[id])
    case Spurious(id) => id in s.subs && s.subs[id].pc.Parked?
  }

  predicate HandlerEnabled(s: Server, h: Sub) {
    match h.pc
    case New => s.lock.None?
    case Leaving => s.lock.None?
    case Locking => h.lock.None?
    case Relocking => h.lock.None?
    case Parked => h.woken && h.lock.None?
    case Pop => h.queue != []
    case Exited => false
    case _ => true
  }

  /** One step of the handler on its own subscriber; registration and removal are separate. */
  function HandlerStep(id: nat, h: Sub, ok: bool): Sub
    requires h.pc.Pop? ==> h.queue != []
  {
    match h.pc
    case Outer => h.(pc := if h.done then Leaving else Locking)
    case Locking => h.(lock := Some(Handler(id)), pc := Test)
    case Test => h.(pc := if h.queue != [] || h.done then Inner else Parking)
    case Parking => h.(lock := None, woken := false, pc := Parked)
    case Parked => h.(lock := Some(Handler(id)), pc := Test)
    case Inner => if h.queue != [] && !h.done then h.(pc := Pop) else h.(lock := None, pc := Outer)
    case Pop => h.(queue := h.queue[1..], lock := None, pc := Writing(h.queue[0]))
    case Writing(f) =>
      if ok then h.(written := h.written + [f], pc := Relocking)
      else MarkDone(h).(failed := Some(f), pc := Relocking)
    case Relocking => h.(lock := Some(Handler(id)), pc := Inner)
    case _ => h
  }

  function MarkDone(h: Sub): Sub {
    h.(done := true, doneAt := if h.done then h.doneAt else |h.written|)
  }

  function Woken(h: Sub): Sub {
    if h.pc.Parked? then h.(woken := true, missed := false) else h
  }

  function Do(s: Server, a: Action): Server
    requires Enabled(s, a)
  {
    match a
    case Begin(f) => s.(lock := Some(Broadcaster), bc := Loop(f, 0), sent := s.sent + [f])
    case Visit =>
      var Loop(f, i) := s.bc;
      if i >= |s.list| then s.(lock := None, bc := Idle)
      else if s.list[i] !in s.subs || !Wants(s.subs[s.list[i]].filter, f) then s.(bc := Loop(f, i + 1))
      else s.(bc := Hold(f, i), subs := s.subs[s.list[i] := s.subs[s.list[i]].(lock := Some(Broadcaster))])
    case Push =>
      var Hold(f, i) := s.bc;
      var id := s.list[i];
      if id !in s.subs then s
      else
        var h := s.subs[id];
        s.(bc := Loop(f, i + 1), subs := s.subs[id := Woken(h.(queue := h.queue + [f], lock := None))])
    case BeginShutdown => s.(lock := Some(Stopper), sd := Mark(0))
    case SetDone =>
      var i := s.sd.i;
      if i >= |s.list| then s.(lock := None, sd := Quiet)
      else if s.list[i] !in s.subs then s
      else s.(sd := Notify(i), subs := s.subs[s.list[i] := MarkDone(s.subs[s.list[i]])])
    case NotifyDone =>
      var id := s.list[s.sd.i];
      if id !in s.subs then s
      else
        var h := Woken(s.subs[id]);
        s.(sd := Mark(s.sd.i + 1), subs := s.subs[id := h.(missed := h.missed || h.pc.Parking?)])
    case Open(id, filter) =>
      s.(subs := s.subs[id := Sub(filter, [], None, false, false, New, [], None, 0, 0, 0, false)])
    case Step(id, ok) =>
      var h := s.subs[id];
      if h.pc.New? then
        s.(list := s.list + [id], subs := s.subs[id := h.(pc := Outer, regAt := |s.sent|)])
      else if h.pc.Leaving? then
        s.(list := Without(s.list, id), subs := s.subs[id := h.(pc := Exited, endAt := |s.sent|)])
      else
        s.(subs := s.subs[id := HandlerStep(id, h, ok)])
    case Spurious(id) => s.(subs := s.subs[id := Woken(s.subs[id])])
  }

  function Without(list: seq<nat>, id: nat): (r: seq<nat>)
    ensures forall x :: x in r <==> x in list && x != id
  {
    if list == [] then []
    else
      assert forall x :: x in list <==> x == list[0] || x in list[1..];
      (if list[0] == id then [] else [list[0]]) + Without(list[1..], id)
  }

  lemma {:induction false} WithoutNoDuplicates(list: seq<nat>, id: nat)
    requires NoDuplicates(list)
    ensures NoDuplicates(Without(list, id))
  {
    if list != [] {
      WithoutNoDuplicates(list[1..], id);
      var r := Without(list[1..], id);
      assert list[0] !in list[1..];
      forall j | 0 <= j < |r| ensures r[j] != list[0] {
        assert r[j] in r;
      }
    }
  }

  predicate NoDuplicates(list: seq<nat>) {
    forall i, j | 0 <= i < j < |list| :: list[i] != list[j]
  }

  /** The state after a run, if every action of it was enabled in turn. */
  function Exec(run: seq<Action>): Option<Server> {
    if run == [] then Some(Empty)
    else
      var before := Exec(run[..|run| - 1]);
      if before.Some? && Enabled(before.value, run[|run| - 1]) then Some(Do(before.value, run[|run| - 1])) else None
  }

  // ----- What a subscriber is owed -----

  /** The frames of `sent[from..to]` that the filter lets through, in order. */
  function Matching(sent: seq<Frame>, filter: string, from: nat, to: nat): seq<Frame>
    requires to <= |sent|
  {
    if to <= from then []
    else Matching(sent, filter, from, to - 1) + (if Wants(filter, sent[to - 1]) then [sent[to - 1]] else [])
  }

  lemma {:induction false} MatchingGrows(sent: seq<Frame>, f: Frame, filter: string, from: nat, to: nat)
    requires to <= |sent|
    ensures Matching(sent + [f], filter, from, to) == Matching(sent, filter, from, to)
  {
    if from < to {
      MatchingGrows(sent, f, filter, from, to - 1);
    }
  }

  predicate Registered(h: Sub) {
    !h.pc.New? && !h.pc.Exited?
  }

  /** The broadcast in progress has not reached the subscriber yet. */
  predicate Ahead(s: Server, id: nat) {
    match s.bc
    case Idle => false
    case Loop(_, i) => i <= |s.list| && id in s.list[i..]
    case Hold(_, i) => i <= |s.list| && id in s.list[i..]
  }

  /** How many broadcasts have got as far as the subscriber. */
  function Reached(s: Server, id: nat): nat
    requires id in s.subs && |s.sent| >= s.subs[id].endAt && (Ahead(s, id) ==> s.sent != [])
  {
    if s.subs[id].pc.Exited? then s.subs[id].endAt else if Ahead(s, id) then |s.sent| - 1 else |s.sent|
  }

  function InFlight(h: Sub): seq<Frame> {
    if h.pc.Writing? then [h.pc.frame] else if h.failed.Some? then [h.failed.value] else []
  }

  predicate HoldsOwn(pc: Pc) {
    pc.Test? || pc.Parking? || pc.Inner? || pc.Pop?
  }

  predicate Notifying(s: Server, id: nat) {
    s.sd.Notify? && s.sd.i < |s.list| && s.list[s.sd.i] == id
  }

  predicate BroadcasterHolds(s: Server, id: nat) {
    s.bc.Hold? && s.bc.i < |s.list| && s.list[s.bc.i] == id
  }

  predicate LockInv(s: Server, id: nat)
    requires id in s.subs
  {
    var h := s.subs[id];
    && (h.lock == Some(Handler(id)) <==> HoldsOwn(h.pc))
    && (h.lock == Some(Broadcaster) <==> BroadcasterHolds(s, id))
    && (h.lock.Some? ==> h.lock.value == Handler(id) || h.lock.value == Broadcaster)
  }

  /** Nothing lost, duplicated or reordered between broadcast and write. */
  predicate Conserved(s: Server, id: nat)
    requires id in s.subs && |s.sent| >= s.subs[id].endAt && (Ahead(s, id) ==> s.sent != [])
  {
    var h := s.subs[id];
    if h.pc.New? then h.written == [] && h.queue == [] && h.failed.None?
    else
      && h.regAt <= Reached(s, id)
      && Frames(h) == Matching(s.sent, h.filter, h.regAt, Reached(s, id))
      && (h.failed.Some? ==> h.done && !h.pc.Pop? && !h.pc.Writing?)
  }

  /** After `done` at most one more frame is written. */
  predicate DoneInv(h: Sub) {
    && (h.pc.Pop? ==> h.queue != [])
    && (h.done ==> |h.written| <= h.doneAt + 1)
    && (h.done && (h.pc.Pop? || h.pc.Writing?) ==> |h.written| == h.doneAt)
    && (h.pc.Leaving? || h.pc.Exited? ==> h.done)
    && (h.done ==> h.doneAt <= |h.written|)
  }

  /** When a handler is blocked, or about to be, with a wait predicate that has become true. */
  predicate WakeInv(s: Server, id: nat)
    requires id in s.subs
  {
    var h := s.subs[id];
    && (h.missed ==> h.done && (h.pc.Parking? || (h.pc.Parked? && !h.woken)))
    && (h.pc.Parking? || (h.pc.Parked? && !h.woken) ==> h.queue == [])
    && (h.pc.Parking? || (h.pc.Parked? && !h.woken) ==> (h.done ==> h.missed || Notifying(s, id)))
    && (Notifying(s, id) ==> h.done)
  }

  predicate GlobalInv(s: Server) {
    && NoDuplicates(s.list)
    && (forall i | 0 <= i < |s.list| :: s.list[i] in s.subs)
    && (forall id | id in s.subs :: id in s.list <==> Registered(s.subs[id]))
    && (s.lock == Some(Broadcaster) <==> !s.bc.Idle?)
    && (s.lock == Some(Stopper) <==> !s.sd.Quiet?)
    && (s.lock.Some? ==> s.lock.value == Broadcaster || s.lock.value == Stopper)
    && (!s.bc.Idle? ==> s.sent != [] && s.sent[|s.sent| - 1] == s.bc.frame && s.bc.i <= |s.list|)
    && (s.bc.Hold? ==> s.bc.i < |s.list| && Wants(s.subs[s.list[s.bc.i]].filter, s.bc.frame))
    && (s.sd.Notify? ==> s.sd.i < |s.list|)
    && (forall id | id in s.subs :: s.subs[id].endAt <= |s.sent| && s.subs[id].regAt <= |s.sent|)
  }

  predicate SubInv(s: Server, id: nat)
    requires id in s.subs && |s.sent| >= s.subs[id].endAt && (Ahead(s, id) ==> s.sent != [])
  {
    LockInv(s, id) && Conserved(s, id) && DoneInv(s.subs[id]) && WakeInv(s, id)
  }

  predicate Inv(s: Server) {
    && GlobalInv(s)
    && forall id | id in s.subs :: SubInv(s, id)
  }

  // ----- Every step keeps the invariant -----

  /** A subscriber that a step does not touch keeps its invariant. */
  lemma Untouched(s: Server, s': Server, id: nat)
    requires GlobalInv(s) && id in s.subs && id in s'.subs && SubInv(s, id) && s'.subs[id] == s.subs[id]
    requires |s'.sent| >= s.subs[id].endAt && (Ahead(s', id) ==> s'.sent != [])
    requires BroadcasterHolds(s', id) == BroadcasterHolds(s, id) && Notifying(s', id) == Notifying(s, id)
    requires !s.subs[id].pc.New? ==>
               s.subs[id].regAt <= Reached(s', id) &&
               Matching(s'.sent, s.subs[id].filter, s.subs[id].regAt, Reached(s', id)) ==
               Matching(s.sent, s.subs[id].filter, s.subs[id].regAt, Reached(s, id))
    ensures SubInv(s', id)
  {
  }

  /** The frames a handler has written, holds and has queued. */
  function Frames(h: Sub): seq<Frame> {
    h.written + InFlight(h) + h.queue
  }

  /** Popping and writing only pass a frame on. */
  lemma PopMovesFrame(h: Sub, h': Sub)
    requires h.queue != [] && InFlight(h) == [] && h'.written == h.written
    requires h'.queue == h.queue[1..] && InFlight(h') == [h.queue[0]]
    ensures Frames(h') == Frames(h)
  {
    assert h.queue == [h.queue[0]] + h.queue[1..];
  }

  lemma WriteMovesFrame(h: Sub, h': Sub)
    requires h.pc.Writing? && h'.queue == h.queue && h'.written + InFlight(h') == h.written + [h.pc.frame]
    ensures Frames(h') == Frames(h)
  {
  }

  lemma HandlerStepMovesFrames(id: nat, h: Sub, ok: bool)
    requires h.pc.Pop? ==> h.queue != []
    requires h.failed.Some? ==> h.done && !h.pc.Pop? && !h.pc.Writing?
    ensures var h' := HandlerStep(id, h, ok);
            && Frames(h') == Frames(h)
            && (h'.failed.Some? ==> h'.done && !h'.pc.Pop? && !h'.pc.Writing?)
            && h'.filter == h.filter && h'.regAt == h.regAt && h'.endAt == h.endAt
  {
    var h' := HandlerStep(id, h, ok);
    if h.pc.Pop? {
      PopMovesFrame(h, h');
    } else if h.pc.Writing? {
      WriteMovesFrame(h, h');
    } else {
      assert h'.written == h.written && h'.queue == h.queue && InFlight(h') == InFlight(h);
    }
  }

  lemma HandlerStepDone(id: nat, h: Sub, ok: bool)
    requires DoneInv(h)
    ensures DoneInv(HandlerStep(id, h, ok))
  {
  }

  function WithSub(s: Server, id: nat, h: Sub): Server {
    s.(subs := s.subs[id := h])
  }

  lemma HandlerStepLocks(s: Server, id: nat, ok: bool)
    requires id in s.subs && LockInv(s, id) && HandlerEnabled(s, s.subs[id]) && !s.subs[id].pc.New? && !s.subs[id].pc.Leaving?
    ensures LockInv(WithSub(s, id, HandlerStep(id, s.subs[id], ok)), id)
  {
  }

  lemma HandlerStepWakes(s: Server, id: nat, ok: bool)
    requires id in s.subs && WakeInv(s, id) && HandlerEnabled(s, s.subs[id]) && !s.subs[id].pc.New? && !s.subs[id].pc.Leaving?
    ensures WakeInv(WithSub(s, id, HandlerStep(id, s.subs[id], ok)), id)
  {
  }

  lemma ReplacedKeepsConserved(s: Server, id: nat, h: Sub)
    requires GlobalInv(s) && id in s.subs && SubInv(s, id) && Registered(s.subs[id]) && Registered(h)
    requires h.filter == s.subs[id].filter && h.regAt == s.subs[id].regAt && h.endAt == s.subs[id].endAt
    requires Frames(h) == Frames(s.subs[id])
    requires h.failed.Some? ==> h.done && !h.pc.Pop? && !h.pc.Writing?
    ensures Conserved(WithSub(s, id, h), id)
  {
    assert Reached(WithSub(s, id, h), id) == Reached(s, id);
  }

  lemma HandlerKeepsSub(s: Server, id: nat, ok: bool)
    requires GlobalInv(s) && Enabled(s, Step(id, ok)) && SubInv(s, id)
    requires !s.subs[id].pc.New? && !s.subs[id].pc.Leaving?
    ensures SubInv(WithSub(s, id, HandlerStep(id, s.subs[id], ok)), id)
  {
    HandlerStepMovesFrames(id, s.subs[id], ok);
    HandlerStepStays(id, s.subs[id], ok);
    ReplacedKeepsConserved(s, id, HandlerStep(id, s.subs[id], ok));
    HandlerStepDone(id, s.subs[id], ok);
    HandlerStepLocks(s, id, ok);
    HandlerStepWakes(s, id, ok);
  }

  lemma ReplacedKeepsGlobal(s: Server, id: nat, h: Sub)
    requires GlobalInv(s) && id in s.subs && Registered(h) == Registered(s.subs[id])
    requires h.filter == s.subs[id].filter && h.regAt == s.subs[id].regAt && h.endAt == s.subs[id].endAt
    ensures GlobalInv(WithSub(s, id, h))
  {
    assert WithSub(s, id, h).subs.Keys == s.subs.Keys;
  }

  lemma HandlerStepStays(id: nat, h: Sub, ok: bool)
    requires h.pc.Pop? ==> h.queue != []
    requires !h.pc.New? && !h.pc.Leaving?
    ensures Registered(HandlerStep(id, h, ok)) == Registered(h)
  {
  }

  lemma HandlerKeeps(s: Server, id: nat, ok: bool)
    requires Inv(s) && Enabled(s, Step(id, ok)) && !s.subs[id].pc.New? && !s.subs[id].pc.Leaving?
    ensures Inv(Do(s, Step(id, ok)))
  {
    var s' := WithSub(s, id, HandlerStep(id, s.subs[id], ok));
    assert Do(s, Step(id, ok)) == s';
    HandlerStepMovesFrames(id, s.subs[id], ok);
    HandlerStepStays(id, s.subs[id], ok);
    ReplacedKeepsGlobal(s, id, HandlerStep(id, s.subs[id], ok));
    HandlerKeepsSub(s, id, ok);
    forall other | other in s'.subs && other != id ensures SubInv(s', other) {
      assert Reached(s', other) == Reached(s, other);
      Untouched(s, s', other);
    }
  }

  lemma JoinKeeps(s: Server, id: nat, ok: bool)
    requires Inv(s) && Enabled(s, Step(id, ok)) && s.subs[id].pc.New?
    ensures Inv(Do(s, Step(id, ok)))
  {
    var s' := Do(s, Step(id, ok));
    assert GlobalInv(s');
    forall other | other in s'.subs && other != id ensures SubInv(s', other) {
      Untouched(s, s', other);
    }
    assert SubInv(s', id);
  }

  lemma LeaveKeepsList(s: Server, id: nat, h: Sub)
    requires GlobalInv(s) && id in s.subs && !Registered(h)
    ensures var list, subs := Without(s.list, id), s.subs[id := h];
            && NoDuplicates(list)
            && (forall i | 0 <= i < |list| :: list[i] in subs)
            && (forall other | other in subs :: other in list <==> Registered(subs[other]))
  {
    var list := Without(s.list, id);
    WithoutNoDuplicates(s.list, id);
    forall i | 0 <= i < |list| ensures list[i] in s.subs {
      assert list[i] in list && list[i] in s.list;
    }
  }

  lemma LeaveKeepsGlobal(s: Server, id: nat, ok: bool)
    requires Inv(s) && Enabled(s, Step(id, ok)) && s.subs[id].pc.Leaving?
    ensures GlobalInv(Do(s, Step(id, ok)))
  {
    var h := s.subs[id].(pc := Exited, endAt := |s.sent|);
    LeaveKeepsList(s, id, h);
    assert Do(s, Step(id, ok)) == s.(list := Without(s.list, id), subs := s.subs[id := h]);
    assert s.bc.Idle? && s.sd.Quiet?;
  }

  lemma LeaveKeeps(s: Server, id: nat, ok: bool)
    requires Inv(s) && Enabled(s, Step(id, ok)) && s.subs[id].pc.Leaving?
    ensures Inv(Do(s, Step(id, ok)))
  {
    var s' := Do(s, Step(id, ok));
    LeaveKeepsGlobal(s, id, ok);
    forall other | other in s'.subs && other != id ensures SubInv(s', other) {
      Untouched(s, s', other);
    }
    assert SubInv(s', id);
  }

  lemma BeginKeeps(s: Server, f: Frame)
    requires Inv(s) && Enabled(s, Begin(f))
    ensures Inv(Do(s, Begin(f)))
  {
    var s' := Do(s, Begin(f));
    assert s'.list[0..] == s.list;
    assert GlobalInv(s');
    forall id | id in s'.subs ensures SubInv(s', id) {
      var h := s.subs[id];
      if !h.pc.New? {
        assert Reached(s', id) == Reached(s, id);
        MatchingGrows(s.sent, f, h.filter, h.regAt, Reached(s, id));
      }
      Untouched(s, s', id);
    }
  }

  lemma AheadMoves(list: seq<nat>, i: nat, id: nat)
    requires NoDuplicates(list) && i < |list|
    ensures id in list[i..] <==> id == list[i] || id in list[i + 1..]
    ensures list[i] !in list[i + 1..]
  {
    assert list[i..] == [list[i]] + list[i + 1..];
  }

  lemma VisitEnds(s: Server)
    requires Inv(s) && Enabled(s, Visit) && s.bc.i >= |s.list|
    ensures Inv(Do(s, Visit))
  {
    var s' := Do(s, Visit);
    forall id | id in s'.subs ensures SubInv(s', id) {
      Untouched(s, s', id);
    }
  }

  lemma SkippedKeeps(s: Server, s': Server, id: nat)
    requires Inv(s) && s.bc.Loop? && s.bc.i < |s.list| && !Wants(s.subs[s.list[s.bc.i]].filter, s.bc.frame)
    requires s' == s.(bc := Loop(s.bc.frame, s.bc.i + 1)) && id in s.subs
    ensures SubInv(s', id)
  {
    AheadMoves(s.list, s.bc.i, id);
    assert s.subs[id].endAt <= |s.sent|;
    if id != s.list[s.bc.i] {
      assert Reached(s', id) == Reached(s, id);
    }
    Untouched(s, s', id);
  }

  lemma VisitSkips(s: Server)
    requires Inv(s) && Enabled(s, Visit) && s.bc.i < |s.list| && !Wants(s.subs[s.list[s.bc.i]].filter, s.bc.frame)
    ensures Inv(s.(bc := Loop(s.bc.frame, s.bc.i + 1)))
  {
    var s' := s.(bc := Loop(s.bc.frame, s.bc.i + 1));
    assert GlobalInv(s');
    forall id | id in s'.subs ensures SubInv(s', id) {
      SkippedKeeps(s, s', id);
    }
  }

  lemma VisitLocks(s: Server)
    requires Inv(s) && Enabled(s, Visit) && s.bc.i < |s.list| && Wants(s.subs[s.list[s.bc.i]].filter, s.bc.frame)
    ensures var id := s.list[s.bc.i];
            Inv(WithSub(s, id, s.subs[id].(lock := Some(Broadcaster))).(bc := Hold(s.bc.frame, s.bc.i)))
  {
    var target := s.list[s.bc.i];
    var s' := WithSub(s, target, s.subs[target].(lock := Some(Broadcaster))).(bc := Hold(s.bc.frame, s.bc.i));
    assert GlobalInv(s');
    forall id | id in s'.subs ensures SubInv(s', id) {
      if id == target {
        LockedByBroadcaster(s, s', id);
      } else {
        Untouched(s, s', id);
      }
    }
  }

  lemma VisitKeeps(s: Server)
    requires Inv(s) && Enabled(s, Visit)
    ensures Inv(Do(s, Visit))
  {
    if s.bc.i >= |s.list| {
      VisitEnds(s);
    } else if Wants(s.subs[s.list[s.bc.i]].filter, s.bc.frame) {
      VisitLocks(s);
    } else {
      VisitSkips(s);
    }
  }

  lemma LockedByBroadcaster(s: Server, s': Server, id: nat)
    requires Inv(s) && id in s.subs && s.bc.Loop? && s.bc.i < |s.list| && id == s.list[s.bc.i] && s.subs[id].lock.None?
    requires s' == WithSub(s, id, s.subs[id].(lock := Some(Broadcaster))).(bc := Hold(s.bc.frame, s.bc.i))
    ensures SubInv(s', id)
  {
    assert Ahead(s', id) == Ahead(s, id);
  }

  lemma PushKeeps(s: Server)
    requires Inv(s) && Enabled(s, Push)
    ensures Inv(Do(s, Push))
  {
    var s' := Do(s, Push);
    var i := s.bc.i;
    assert GlobalInv(s');
    forall id | id in s'.subs ensures SubInv(s', id) {
      AheadMoves(s.list, i, id);
      if id == s.list[i] {
        PushedTo(s, s', id);
      } else {
        Untouched(s, s', id);
      }
    }
  }

  lemma PushedTo(s: Server, s': Server, id: nat)
    requires Inv(s) && id in s.subs && BroadcasterHolds(s, id)
    requires s' == WithSub(s, id, Woken(s.subs[id].(queue := s.subs[id].queue + [s.bc.frame], lock := None)))
                   .(bc := Loop(s.bc.frame, s.bc.i + 1))
    ensures SubInv(s', id)
  {
    AheadMoves(s.list, s.bc.i, id);
    var h, h' := s.subs[id], s'.subs[id];
    assert SubInv(s, id);
    assert Frames(h') == Frames(h) + [s.bc.frame];
    assert Reached(s, id) == |s.sent| - 1 && Reached(s', id) == |s.sent|;
    assert Conserved(s', id);
  }

  lemma ShutdownKeepsGlobal(s: Server, a: Action)
    requires Inv(s) && Enabled(s, a) && (a.BeginShutdown? || a.SetDone? || a.NotifyDone?)
    ensures GlobalInv(Do(s, a))
  {
    if a.SetDone? && s.sd.i < |s.list| {
      var id := s.list[s.sd.i];
      ReplacedKeepsGlobal(s, id, MarkDone(s.subs[id]));
      assert Do(s, a) == WithSub(s, id, MarkDone(s.subs[id])).(sd := Notify(s.sd.i));
    } else if a.NotifyDone? {
      var id := s.list[s.sd.i];
      var h := Woken(s.subs[id]);
      var h' := h.(missed := h.missed || h.pc.Parking?);
      ReplacedKeepsGlobal(s, id, h');
      assert Do(s, a) == WithSub(s, id, h').(sd := Mark(s.sd.i + 1));
    }
  }

  /** A subscriber that a shutdown step is not about. */
  lemma ShutdownElsewhere(s: Server, a: Action, id: nat)
    requires Inv(s) && Enabled(s, a) && (a.BeginShutdown? || a.SetDone? || a.NotifyDone?) && id in s.subs
    requires (a.SetDone? || a.NotifyDone?) && s.sd.i < |s.list| ==> s.list[s.sd.i] != id
    ensures id in Do(s, a).subs && |s.sent| >= s.subs[id].endAt && (Ahead(s, id) ==> s.sent != []) && SubInv(Do(s, a), id)
  {
    var s' := Do(s, a);
    assert s'.list == s.list && s'.bc == s.bc && s'.sent == s.sent && s'.subs[id] == s.subs[id];
    assert Ahead(s', id) == Ahead(s, id);
    Untouched(s, s', id);
  }

  lemma ShutdownKeeps(s: Server, a: Action)
    requires Inv(s) && Enabled(s, a) && (a.BeginShutdown? || a.SetDone? || a.NotifyDone?)
    ensures Inv(Do(s, a))
  {
    var s' := Do(s, a);
    ShutdownKeepsGlobal(s, a);
    assert s'.subs.Keys == s.subs.Keys;
    forall id | id in s'.subs ensures SubInv(s', id) {
      if a.SetDone? && s.sd.i < |s.list| && s.list[s.sd.i] == id {
        MarkedDone(s, s', id);
      } else if a.NotifyDone? && s.list[s.sd.i] == id {
        NotifiedDone(s, s', id);
      } else {
        ShutdownElsewhere(s, a, id);
      }
    }
  }

  lemma MarkedDone(s: Server, s': Server, id: nat)
    requires Inv(s) && id in s.subs && s.sd.Mark? && s.sd.i < |s.list| && s.list[s.sd.i] == id
    requires s' == WithSub(s, id, MarkDone(s.subs[id])).(sd := Notify(s.sd.i))
    ensures SubInv(s', id)
  {
    assert Reached(s', id) == Reached(s, id);
  }

  lemma NotifiedDone(s: Server, s': Server, id: nat)
    requires Inv(s) && id in s.subs && Notifying(s, id)
    requires var h := Woken(s.subs[id]);
             s' == WithSub(s, id, h.(missed := h.missed || h.pc.Parking?)).(sd := Mark(s.sd.i + 1))
    ensures SubInv(s', id)
  {
    assert Reached(s', id) == Reached(s, id);
  }

  lemma OpenKeeps(s: Server, id: nat, filter: string)
    requires Inv(s) && Enabled(s, Open(id, filter))
    ensures Inv(Do(s, Open(id, filter)))
  {
    var s' := Do(s, Open(id, filter));
    assert GlobalInv(s');
    forall other | other in s'.subs ensures SubInv(s', other) {
      if other != id {
        Untouched(s, s', other);
      }
    }
  }

  lemma SpuriousKeeps(s: Server, id: nat)
    requires Inv(s) && Enabled(s, Spurious(id))
    ensures Inv(Do(s, Spurious(id)))
  {
    var s' := Do(s, Spurious(id));
    assert GlobalInv(s');
    forall other | other in s'.subs ensures SubInv(s', other) {
      assert Reached(s', other) == Reached(s, other);
      if other != id {
        Untouched(s, s', other);
      }
    }
  }

  lemma StepKeeps(s: Server, a: Action)
    requires Inv(s) && Enabled(s, a)
    ensures Inv(Do(s, a))
  {
    match a
    case Begin(f) => BeginKeeps(s, f);
    case Visit => VisitKeeps(s);
    case Push => PushKeeps(s);
    case Open(id, filter) => OpenKeeps(s, id, filter);
    case Step(id, ok) =>
      if s.subs[id].pc.New? {
        JoinKeeps(s, id, ok);
      } else if s.subs[id].pc.Leaving? {
        LeaveKeeps(s, id, ok);
      } else {
        HandlerKeeps(s, id, ok);
      }
    case Spurious(id) => SpuriousKeeps(s, id);
    case _ => ShutdownKeeps(s, a);
  }

  lemma {:induction false} RunKeeps(run: seq<Action>)
    requires Exec(run).Some?
    ensures Inv(Exec(run).value)
  {
    if run != [] {
      RunKeeps(run[..|run| - 1]);
      StepKeeps(Exec(run[..|run| - 1]).value, run[|run| - 1]);
    }
  }
}
