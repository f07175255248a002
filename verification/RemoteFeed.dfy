/** A receiving socket against the streaming service, over disconnects, reconnects, stops and restarts. */
module RemoteFeed {
  import opened Basics
  import S = Streaming
  import P = StreamingProperties
  import C = GrpcClient

  /** A frame as the client's callback sees it. */
  datatype ClientFrame = ClientFrame(iface: string, id: nat, dlc: nat, payload: seq<bv8>)

  /** A delivered frame; `sub` only records the subscription it came from. */
  datatype Delivery = Delivery(frame: ClientFrame, sub: nat)

  datatype Feed = Feed(server: S.Server, client: C.Client, iface: string, sub: Option<nat>, taken: nat, log: seq<Delivery>)

  datatype Action =
    | Server(sa: S.Action)
    | Client(ca: C.Action, up: bool, id: nat)   // `up`: a subscribing client reaches the server, as handler `id`

  predicate Subscribes(f: Feed, a: Action) {
    a.Client? && a.ca.Advance? && f.client.reader.Opening?
  }

  predicate Enabled(f: Feed, a: Action) {
    match a
    case Server(x) => S.Enabled(f.server, x)
    case Client(x, up, id) =>
      && C.Enabled(f.client, x)
      && (Subscribes(f, a) && up ==> id !in f.server.subs)
      && (x.ReadFrame? ==> f.sub.Some? && f.sub.value in f.server.subs && f.taken < |f.server.subs[f.sub.value].written|)
  }

  function ToClient(iface: string, x: S.Frame): ClientFrame {
    ClientFrame(iface, x.id, x.dlc % 256, x.data)
  }

  function Do(f: Feed, a: Action): Feed
    requires Enabled(f, a)
  {
    match a
    case Server(x) => f.(server := S.Do(f.server, x))
    case Client(x, up, id) =>
      var f' := f.(client := C.Do(f.client, x));
      if Subscribes(f, a) then
        if up then f'.(server := S.Do(f.server, S.Open(id, f.iface)), sub := Some(id), taken := 0)
        else f'.(sub := None)
      else if x.ReadFrame? then
        var h := f.server.subs[f.sub.value];
        f'.(taken := f.taken + 1,
            log := f.log + [Delivery(ToClient(f.iface, h.written[f.taken]), f.sub.value)])
      else f'
  }

  function Exec(iface: string, run: seq<Action>): Option<Feed> {
    if run == [] then Some(Feed(S.Empty, C.Initial, iface, None, 0, []))
    else
      var before := Exec(iface, run[..|run| - 1]);
      if before.Some? && Enabled(before.value, run[|run| - 1]) then Some(Do(before.value, run[|run| - 1])) else None
  }

  // ----- Positions in the stream of broadcasts -----

  function Count(sent: seq<S.Frame>, filter: string, from: nat, end: nat): nat
    requires end <= |sent|
  {
    |S.Matching(sent, filter, from, end)|
  }

  /** The `n`-th matching frame and its position: everything matching before it comes earlier. */
  lemma {:induction false} NthMatch(sent: seq<S.Frame>, filter: string, from: nat, end: nat, n: nat) returns (p: nat)
    requires end <= |sent| && n < Count(sent, filter, from, end)
    ensures from <= p < end && S.Wants(filter, sent[p])
    ensures S.Matching(sent, filter, from, end)[n] == sent[p]
    ensures Count(sent, filter, from, p) == n
    decreases end
  {
    if S.Wants(filter, sent[end - 1]) && n == Count(sent, filter, from, end - 1) {
      p := end - 1;
    } else {
      p := NthMatch(sent, filter, from, end - 1, n);
    }
  }

  lemma {:induction false} CountMonotone(sent: seq<S.Frame>, filter: string, from: nat, a: nat, b: nat)
    requires from <= a <= b <= |sent|
    ensures Count(sent, filter, from, a) <= Count(sent, filter, from, b)
    ensures Count(sent, filter, from, a) == Count(sent, filter, from, b) ==>
              forall p | a <= p < b :: !S.Wants(filter, sent[p])
    decreases b
  {
    if a < b {
      CountMonotone(sent, filter, from, a, b - 1);
    }
  }

  // ----- Where the delivered frames come from -----

  /** No broadcast strictly between two positions passes the filter. */
  predicate NothingBetween(sent: seq<S.Frame>, filter: string, a: nat, b: nat) {
    b <= |sent| && forall p | a < p < b :: !S.Wants(filter, sent[p])
  }

  /** `pos` names the broadcast behind every delivery. */
  ghost predicate Explains(f: Feed, pos: seq<nat>) {
    var sent := f.server.sent;
    && |pos| == |f.log|
    && (forall k | 0 <= k < |pos| :: pos[k] < |sent| && S.Wants(f.iface, sent[pos[k]]) &&
                                     f.log[k].frame == ToClient(f.iface, sent[pos[k]]))
    && (forall j, k | 0 <= j < k < |pos| :: pos[j] < pos[k])
    && (forall j, k | 0 <= j < k < |pos| && k == j + 1 && f.log[j].sub == f.log[k].sub ::
          NothingBetween(sent, f.iface, pos[j], pos[k]))
  }

  /** One past the last delivered broadcast. */
  function Bound(pos: seq<nat>): nat {
    if pos == [] then 0 else pos[|pos| - 1] + 1
  }

  ghost predicate Linked(f: Feed, pos: seq<nat>)
    requires Explains(f, pos)
  {
    && (forall k | 0 <= k < |f.log| :: f.log[k].sub in f.server.subs)
    && (f.sub.Some? ==>
          && f.sub.value in f.server.subs
          && var h := f.server.subs[f.sub.value];
          && h.filter == f.iface && f.taken <= |h.written|
          && (f.taken == 0 ==> forall k | 0 <= k < |f.log| :: f.log[k].sub != f.sub.value)
          && (f.taken > 0 ==> f.log != [] && f.log[|f.log| - 1].sub == f.sub.value)
          && (h.pc.New? ==> f.taken == 0)
          && (!h.pc.New? && f.taken == 0 ==> Bound(pos) <= h.regAt)
          && (!h.pc.New? && f.taken > 0 ==>
                h.regAt < Bound(pos) && Count(f.server.sent, f.iface, h.regAt, Bound(pos)) == f.taken))
  }

  /** The subscription was registered no later than that broadcast. */
  predicate Covers(s: S.Server, id: nat, p: nat) {
    id in s.subs && !s.subs[id].pc.New? && s.subs[id].regAt <= p < |s.sent|
  }

  /** That broadcast is the first since its registration that the subscription wants. */
  predicate FirstOf(s: S.Server, id: nat, filter: string, p: nat) {
    Covers(s, id, p) && forall q | s.subs[id].regAt <= q < p :: !S.Wants(filter, s.sent[q])
  }

  /** Every connection's deliveries start with its first matching broadcast after registration. */
  ghost predicate Begun(f: Feed, pos: seq<nat>)
    requires |pos| == |f.log|
  {
    && (forall k | 0 <= k < |pos| :: Covers(f.server, f.log[k].sub, pos[k]))
    && (pos != [] ==> FirstOf(f.server, f.log[0].sub, f.iface, pos[0]))
    && (forall j, k | 0 <= j < k < |pos| && k == j + 1 && f.log[j].sub != f.log[k].sub ::
          FirstOf(f.server, f.log[k].sub, f.iface, pos[k]))
  }

  /** What a server step leaves of an existing subscriber. */
  predicate Continues(s: S.Server, s': S.Server, id: nat) {
    && id in s.subs && id in s'.subs
    && s'.subs[id].filter == s.subs[id].filter
    && s.subs[id].written <= s'.subs[id].written
    && (!s.subs[id].pc.New? ==> !s'.subs[id].pc.New? && s'.subs[id].regAt == s.subs[id].regAt)
    && (s.subs[id].pc.New? && !s'.subs[id].pc.New? ==> s'.subs[id].regAt == |s.sent|)
  }

  lemma HandlerStepContinues(id: nat, h: S.Sub, ok: bool)
    requires h.pc.Pop? ==> h.queue != []
    ensures var h' := S.HandlerStep(id, h, ok);
            h'.filter == h.filter && h.written <= h'.written && h'.pc.New? == h.pc.New? && h'.regAt == h.regAt
  {
    if h.pc.Writing? {
      assert h.written <= h.written + [h.pc.frame];
    } else {
      assert S.HandlerStep(id, h, ok).written == h.written;
    }
  }

  lemma StepContinues(s: S.Server, a: S.Action, id: nat)
    requires S.Inv(s) && S.Enabled(s, a) && id in s.subs && a.Step?
    ensures Continues(s, S.Do(s, a), id)
    ensures S.Do(s, a).sent == s.sent
  {
    var h := s.subs[a.sub];
    HandlerStepContinues(a.sub, h, a.ok);
    if a.sub != id {
      assert S.Do(s, a).subs[id] == s.subs[id];
    } else if h.pc.New? {
      assert S.Do(s, a).subs[id] == h.(pc := S.Outer, regAt := |s.sent|);
    } else if h.pc.Leaving? {
      assert S.Do(s, a).subs[id] == h.(pc := S.Exited, endAt := |s.sent|);
    } else {
      assert S.Do(s, a).subs[id] == S.HandlerStep(id, h, a.ok);
    }
  }

  lemma ServerContinues(s: S.Server, a: S.Action, id: nat)
    requires S.Inv(s) && S.Enabled(s, a) && id in s.subs
    ensures Continues(s, S.Do(s, a), id)
    ensures s.sent <= S.Do(s, a).sent && |S.Do(s, a).sent| <= |s.sent| + 1
  {
    if a.Step? {
      StepContinues(s, a, id);
    } else {
      var h, h' := s.subs[id], S.Do(s, a).subs[id];
      assert h'.written == h.written && h'.filter == h.filter && h'.regAt == h.regAt && h'.pc == h.pc;
    }
  }

  lemma CountGrows(sent: seq<S.Frame>, sent': seq<S.Frame>, filter: string, from: nat, end: nat)
    requires sent <= sent' && |sent'| <= |sent| + 1 && end <= |sent|
    ensures Count(sent', filter, from, end) == Count(sent, filter, from, end)
  {
    if sent != sent' {
      assert sent' == sent + [sent'[|sent|]];
      S.MatchingGrows(sent, sent'[|sent|], filter, from, end);
    }
  }

  lemma ExplainsLonger(f: Feed, f': Feed, pos: seq<nat>)
    requires Explains(f, pos) && f.server.sent <= f'.server.sent && f'.log == f.log && f'.iface == f.iface
    ensures Explains(f', pos)
  {
    assert forall p | 0 <= p < |f.server.sent| :: f'.server.sent[p] == f.server.sent[p];
  }

  lemma LinkedLonger(f: Feed, f': Feed, pos: seq<nat>)
    requires Explains(f, pos) && Explains(f', pos) && Linked(f, pos) && f.sub.Some?
    requires f' == f.(server := f'.server) && f.server.sent <= f'.server.sent && |f'.server.sent| <= |f.server.sent| + 1
    requires forall id | id in f.server.subs :: id in f'.server.subs
    requires Continues(f.server, f'.server, f.sub.value)
    ensures Linked(f', pos)
  {
    assert Bound(pos) <= |f.server.sent|;
    var h := f.server.subs[f.sub.value];
    if !h.pc.New? && f.taken > 0 {
      CountGrows(f.server.sent, f'.server.sent, f.iface, h.regAt, Bound(pos));
    }
  }

  lemma ServerKeeps(f: Feed, x: S.Action, pos: seq<nat>)
    requires S.Inv(f.server) && S.Enabled(f.server, x) && Explains(f, pos) && Linked(f, pos)
    ensures Explains(f.(server := S.Do(f.server, x)), pos) && Linked(f.(server := S.Do(f.server, x)), pos)
  {
    var f' := f.(server := S.Do(f.server, x));
    ServerGrows(f.server, x);
    ExplainsLonger(f, f', pos);
    if f.sub.Some? {
      ServerContinues(f.server, x, f.sub.value);
      LinkedLonger(f, f', pos);
    }
  }

  lemma ServerKeepsBegun(f: Feed, x: S.Action, pos: seq<nat>)
    requires S.Inv(f.server) && S.Enabled(f.server, x) && |pos| == |f.log| && Begun(f, pos)
    ensures Begun(f.(server := S.Do(f.server, x)), pos)
  {
    var s, s' := f.server, S.Do(f.server, x);
    forall k | 0 <= k < |pos|
      ensures Covers(s', f.log[k].sub, pos[k])
      ensures FirstOf(s, f.log[k].sub, f.iface, pos[k]) ==> FirstOf(s', f.log[k].sub, f.iface, pos[k])
    {
      ServerContinues(s, x, f.log[k].sub);
    }
  }

  lemma ReadKeepsBegun(f: Feed, f': Feed, pos: seq<nat>, p: nat)
    requires |pos| == |f.log| && Begun(f, pos) && f.sub.Some?
    requires f'.server == f.server && f'.iface == f.iface && |f'.log| == |f.log| + 1 && f'.log[..|f.log|] == f.log
    requires f'.log[|f.log|].sub == f.sub.value && Covers(f.server, f.sub.value, p)
    requires f.log == [] || f.log[|f.log| - 1].sub != f.sub.value ==> FirstOf(f.server, f.sub.value, f.iface, p)
    ensures Begun(f', pos + [p])
  {
    assert forall k | 0 <= k < |f.log| :: f'.log[k] == f.log[k];
  }

  lemma ServerGrows(s: S.Server, a: S.Action)
    requires S.Inv(s) && S.Enabled(s, a)
    ensures s.sent <= S.Do(s, a).sent && forall id | id in s.subs :: id in S.Do(s, a).subs
  {
  }

  /** The next frame of a subscription lies past the last one delivered, with nothing matching between. */
  lemma NextPosition(sent: seq<S.Frame>, filter: string, from: nat, bound: nat, n: nat) returns (p: nat)
    requires from <= bound <= |sent| && Count(sent, filter, from, bound) == n < Count(sent, filter, from, |sent|)
    ensures bound <= p < |sent| && S.Wants(filter, sent[p])
    ensures sent[p] == S.Matching(sent, filter, from, |sent|)[n]
    ensures forall q | bound <= q < p :: !S.Wants(filter, sent[q])
    ensures Count(sent, filter, from, p + 1) == n + 1
  {
    p := NthMatch(sent, filter, from, |sent|, n);
    if p < bound {
      CountMonotone(sent, filter, from, p + 1, bound);
    } else {
      CountMonotone(sent, filter, from, bound, p);
    }
  }

  /** The broadcast behind the next frame to be read. */
  lemma NextRead(f: Feed, pos: seq<nat>) returns (p: nat)
    requires S.Inv(f.server) && f.sub.Some? && f.sub.value in f.server.subs && Explains(f, pos) && Linked(f, pos)
    requires f.taken < |f.server.subs[f.sub.value].written|
    ensures var sent, h := f.server.sent, f.server.subs[f.sub.value];
            && !h.pc.New? && h.regAt <= p < |sent| && Bound(pos) <= p && S.Wants(f.iface, sent[p]) && h.written[f.taken] == sent[p]
            && (forall q | (if f.taken == 0 then h.regAt else Bound(pos)) <= q < p :: !S.Wants(f.iface, sent[q]))
            && Count(sent, f.iface, h.regAt, p + 1) == f.taken + 1
  {
    var id := f.sub.value;
    var h := f.server.subs[id];
    assert !h.pc.New? by { assert S.SubInv(f.server, id); }
    P.WrittenMatches(f.server, id);
    p := NextPosition(f.server.sent, f.iface, h.regAt, if f.taken == 0 then h.regAt else Bound(pos), f.taken);
  }

  /** A frame read from the stream is the next matching broadcast of this subscription. */
  lemma ReadKeeps(f: Feed, a: Action, pos: seq<nat>) returns (pos': seq<nat>)
    requires S.Inv(f.server) && Enabled(f, a) && a.Client? && a.ca.ReadFrame?
    requires Explains(f, pos) && Linked(f, pos) && Begun(f, pos)
    ensures Explains(Do(f, a), pos') && Linked(Do(f, a), pos') && Begun(Do(f, a), pos')
  {
    var p := NextRead(f, pos);
    pos' := pos + [p];
    var f' := Do(f, a);
    assert f'.log == f.log + [Delivery(ToClient(f.iface, f.server.sent[p]), f.sub.value)];
    Extended(f, f', pos, p);
    LinkedToNext(f, f', pos, p);
    ReadKeepsBegun(f, f', pos, p);
  }

  lemma LinkedToNext(f: Feed, f': Feed, pos: seq<nat>, p: nat)
    requires Explains(f, pos) && Linked(f, pos) && Explains(f', pos + [p]) && f.sub.Some?
    requires f'.server == f.server && f'.iface == f.iface && f'.sub == f.sub && f'.taken == f.taken + 1
    requires |f'.log| == |f.log| + 1 && f'.log[..|f.log|] == f.log && f'.log[|f.log|].sub == f.sub.value
    requires var h := f.server.subs[f.sub.value];
             && !h.pc.New? && h.regAt <= p < |f.server.sent| && f'.taken <= |h.written|
             && Count(f.server.sent, f.iface, h.regAt, p + 1) == f'.taken
    ensures Linked(f', pos + [p])
  {
    assert Bound(pos + [p]) == p + 1;
    assert forall k | 0 <= k < |f.log| :: f'.log[k] == f.log[k];
  }

  lemma Extended(f: Feed, f': Feed, pos: seq<nat>, p: nat)
    requires Explains(f, pos) && p < |f.server.sent| && S.Wants(f.iface, f.server.sent[p]) && Bound(pos) <= p
    requires f'.server == f.server && f'.iface == f.iface && |f'.log| == |f.log| + 1 && f'.log[..|f.log|] == f.log
    requires f'.log[|f.log|].frame == ToClient(f.iface, f.server.sent[p])
    requires f.log != [] && f'.log[|f.log|].sub == f.log[|f.log| - 1].sub ==>
               forall q | Bound(pos) <= q < p :: !S.Wants(f.iface, f.server.sent[q])
    ensures Explains(f', pos + [p])
  {
    var pos' := pos + [p];
    var n := |pos|;
    assert forall k | 0 <= k < n :: f'.log[k] == f.log[k] && pos'[k] == pos[k] && pos[k] < Bound(pos);
    assert f'.log[n].frame == ToClient(f.iface, f.server.sent[pos'[n]]);
    forall j, k | 0 <= j < k < |pos'| && k == j + 1 && f'.log[j].sub == f'.log[k].sub
      ensures NothingBetween(f.server.sent, f.iface, pos'[j], pos'[k])
    {
      if k < n {
        assert f.log[j].sub == f.log[k].sub;
        assert NothingBetween(f.server.sent, f.iface, pos[j], pos[k]);
      NoneWanted(f.server.sent, f.iface, pos[j] + 1, pos[k]);
      } else {
        assert pos'[j] + 1 == Bound(pos);
      }
    }
  }

  /** A new subscription starts with nothing taken, past everything delivered. */
  lemma ConnectKeeps(f: Feed, f': Feed, id: nat, pos: seq<nat>)
    requires S.Inv(f.server) && id !in f.server.subs && Explains(f, pos) && Linked(f, pos)
    requires f' == f.(client := f'.client, server := S.Do(f.server, S.Open(id, f.iface)), sub := Some(id), taken := 0)
    ensures Explains(f', pos) && Linked(f', pos)
  {
    assert f'.server.sent == f.server.sent && f'.server.subs[id].filter == f.iface && f'.server.subs[id].pc.New?;
    assert forall k | 0 <= k < |f.log| :: f.log[k].sub in f.server.subs;
  }

  /** A client step that neither reads nor connects leaves the feed alone, or loses the subscription. */
  lemma ClientElsewhere(f: Feed, a: Action)
    requires Enabled(f, a) && a.Client? && !a.ca.ReadFrame? && !(Subscribes(f, a) && a.up)
    ensures var f' := Do(f, a);
            f' == f.(client := f'.client, sub := f'.sub) && (f'.sub == f.sub || f'.sub.None?)
  {
  }

  lemma ElsewhereKeeps(f: Feed, f': Feed, pos: seq<nat>)
    requires Explains(f, pos) && Linked(f, pos)
    requires f' == f.(client := f'.client, sub := f'.sub) && (f'.sub == f.sub || f'.sub.None?)
    ensures Explains(f', pos) && Linked(f', pos)
  {
  }

  lemma ClientKeeps(f: Feed, a: Action, pos: seq<nat>)
    requires S.Inv(f.server) && Enabled(f, a) && a.Client? && !a.ca.ReadFrame? && Explains(f, pos) && Linked(f, pos)
    ensures Explains(Do(f, a), pos) && Linked(Do(f, a), pos)
  {
    if Subscribes(f, a) && a.up {
      ConnectKeeps(f, Do(f, a), a.id, pos);
    } else {
      ClientElsewhere(f, a);
      ElsewhereKeeps(f, Do(f, a), pos);
    }
  }

  lemma {:induction false} RunExplained(iface: string, run: seq<Action>) returns (pos: seq<nat>)
    requires Exec(iface, run).Some?
    ensures S.Inv(Exec(iface, run).value.server)
    ensures Exec(iface, run).value.iface == iface
    ensures var f := Exec(iface, run).value; Explains(f, pos) && Linked(f, pos) && Begun(f, pos)
  {
    if run == [] {
      pos := [];
    } else {
      pos := RunExplained(iface, run[..|run| - 1]);
      var f, a := Exec(iface, run[..|run| - 1]).value, run[|run| - 1];
      match a
      case Server(x) =>
        ServerKeeps(f, x, pos);
        ServerKeepsBegun(f, x, pos);
        S.StepKeeps(f.server, x);
      case Client(x, up, id) =>
        if x.ReadFrame? {
          pos := ReadKeeps(f, a, pos);
        } else {
          if Subscribes(f, a) && up {
            S.StepKeeps(f.server, S.Open(id, f.iface));
            ServerKeepsBegun(f, S.Open(id, f.iface), pos);
          }
          ClientKeeps(f, a, pos);
        }
    }
  }

  /**
    Over any run with disconnects, reconnects, stops and restarts, what the
    callback has seen is an order-preserving, duplicate-free selection of the
    matching broadcasts. The deliveries of one connection start with the first
    matching broadcast after its registration and go on without a gap.
   */
  lemma FeedIsOrderedSelection(iface: string, run: seq<Action>) returns (pos: seq<nat>)
    requires Exec(iface, run).Some?
    ensures var f := Exec(iface, run).value;
            var sent, subs := f.server.sent, f.server.subs;
            && |pos| == |f.log|
            && (forall j, k | 0 <= j < k < |pos| :: pos[j] < pos[k])
            && (forall k | 0 <= k < |pos| ::
                  && pos[k] < |sent| && (iface != "" ==> sent[pos[k]].iface == iface)
                  && f.log[k].frame == ClientFrame(iface, sent[pos[k]].id, sent[pos[k]].dlc % 256, sent[pos[k]].data))
            && (forall k | 0 <= k < |pos| ::
                  f.log[k].sub in subs && !subs[f.log[k].sub].pc.New? && subs[f.log[k].sub].regAt <= pos[k])
            && (forall j, k | 0 <= j < k < |pos| && k == j + 1 && f.log[j].sub == f.log[k].sub ::
                  NoneOf(sent, iface, pos[j] + 1, pos[k]))
            && (pos != [] ==> NoneOf(sent, iface, subs[f.log[0].sub].regAt, pos[0]))
            && (forall j, k | 0 <= j < k < |pos| && k == j + 1 && f.log[j].sub != f.log[k].sub ::
                  NoneOf(sent, iface, subs[f.log[k].sub].regAt, pos[k]))
  {
    pos := RunExplained(iface, run);
    FramesMean(Exec(iface, run).value, pos);
    GapsMean(Exec(iface, run).value, pos);
    StartsMean(Exec(iface, run).value, pos);
  }

  lemma NoneWanted(sent: seq<S.Frame>, iface: string, from: nat, end: nat)
    requires end <= |sent| && forall p | from <= p < end :: !S.Wants(iface, sent[p])
    ensures NoneOf(sent, iface, from, end)
  {
    if from < end {
      assert !S.Wants(iface, sent[from]);
    }
    forall p | from <= p < end ensures sent[p].iface != iface {
      assert !S.Wants(iface, sent[p]);
    }
  }

  lemma FramesMean(f: Feed, pos: seq<nat>)
    requires Explains(f, pos)
    ensures forall k | 0 <= k < |pos| ::
              var sent := f.server.sent;
              && pos[k] < |sent| && (f.iface != "" ==> sent[pos[k]].iface == f.iface)
              && f.log[k].frame == ClientFrame(f.iface, sent[pos[k]].id, sent[pos[k]].dlc % 256, sent[pos[k]].data)
  {
  }

  lemma GapsMean(f: Feed, pos: seq<nat>)
    requires Explains(f, pos)
    ensures forall j, k | 0 <= j < k < |pos| && k == j + 1 && f.log[j].sub == f.log[k].sub ::
              NoneOf(f.server.sent, f.iface, pos[j] + 1, pos[k])
  {
    forall j, k | 0 <= j < k < |pos| && k == j + 1 && f.log[j].sub == f.log[k].sub
      ensures NoneOf(f.server.sent, f.iface, pos[j] + 1, pos[k])
    {
      assert NothingBetween(f.server.sent, f.iface, pos[j], pos[k]);
      NoneWanted(f.server.sent, f.iface, pos[j] + 1, pos[k]);
    }
  }

  lemma StartsMean(f: Feed, pos: seq<nat>)
    requires |pos| == |f.log| && Begun(f, pos)
    ensures forall k | 0 <= k < |pos| ::
              var subs := f.server.subs;
              f.log[k].sub in subs && !subs[f.log[k].sub].pc.New? && subs[f.log[k].sub].regAt <= pos[k]
    ensures pos != [] ==> NoneOf(f.server.sent, f.iface, f.server.subs[f.log[0].sub].regAt, pos[0])
    ensures forall j, k | 0 <= j < k < |pos| && k == j + 1 && f.log[j].sub != f.log[k].sub ::
              NoneOf(f.server.sent, f.iface, f.server.subs[f.log[k].sub].regAt, pos[k])
  {
    assert forall k | 0 <= k < |pos| :: Covers(f.server, f.log[k].sub, pos[k]);
    if pos != [] { NoneWanted(f.server.sent, f.iface, f.server.subs[f.log[0].sub].regAt, pos[0]); }
    forall j, k | 0 <= j < k < |pos| && k == j + 1 && f.log[j].sub != f.log[k].sub
      ensures NoneOf(f.server.sent, f.iface, f.server.subs[f.log[k].sub].regAt, pos[k])
    {
      assert FirstOf(f.server, f.log[k].sub, f.iface, pos[k]);
      NoneWanted(f.server.sent, f.iface, f.server.subs[f.log[k].sub].regAt, pos[k]);
    }
  }

  /** Of the broadcasts in that stretch none is owed to a subscriber of the interface. */
  predicate NoneOf(sent: seq<S.Frame>, iface: string, from: nat, to: nat) {
    if iface == "" then from >= to else forall p | from <= p < to && p < |sent| :: sent[p].iface != iface
  }
}
