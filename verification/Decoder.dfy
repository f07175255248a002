/** Decoding received frames with a DBC, and the round trip through the encoder. */
module Decoding {
  import opened Basics
  import opened Bits
  import opened Codec
  import opened Sending
  import opened Sorting

  datatype DecodedSignal = DecodedSignal(name: string, value: real, unit: string, minVal: real, maxVal: real)

  /** The multiplexer switch of a message, if it has one. */
  function MuxSignal(signals: seq<Signal>): (r: Option<Signal>)
    ensures r.Some? ==> r.value in signals && r.value.mux.Switch?
    ensures r.None? ==> forall i | 0 <= i < |signals| :: !signals[i].mux.Switch?
  {
    if signals == [] then None
    else if signals[0].mux.Switch? then Some(signals[0])
    else MuxSignal(signals[1..])
  }

  /** A multiplexed signal is present only under its own switch value. */
  predicate Selected(m: Message, s: Signal, data: seq<bv8>)
    requires ValidMessage(m) && m.size <= |data|
  {
    s.mux.Multiplexed? ==>
      var sw := MuxSignal(m.signals);
      sw.Some? && DecodeRaw(data, sw.value) % Pow2(64) == s.mux.switchValue
  }

  function DecodedOf(s: Signal, data: seq<bv8>): DecodedSignal
    requires ValidSignal(s) && Fits(s, |data|)
  {
    DecodedSignal(s.name, DecodedValue(s, DecodeRaw(data, s)), s.unit, s.min, EffectiveMax(s))
  }

  /** What the first `n` signals of the message decode to. */
  function DecodedSignals(m: Message, data: seq<bv8>, n: nat): seq<DecodedSignal>
    requires ValidMessage(m) && m.size <= |data| && n <= |m.signals|
  {
    if n == 0 then []
    else
      var s := m.signals[n - 1];
      DecodedSignals(m, data, n - 1) + (if Selected(m, s, data) then [DecodedOf(s, data)] else [])
  }

  class CanFrame {
    const id: nat
    const payload: seq<bv8>
    var decoded: seq<DecodedSignal>
    var msgName: string

    constructor (id: nat, payload: seq<bv8>)
      ensures this.id == id && this.payload == payload && decoded == [] && msgName == ""
    {
      this.id := id;
      this.payload := payload;
      decoded := [];
      msgName := "";
    }
  }

  class DbcPppWrapper {
    var messages: map<nat, Message>

    predicate Valid()
      reads this
    {
      forall id | id in messages :: ValidMessage(messages[id])
    }

    /** The first message of the network with a given id wins. */
    constructor (network: seq<Message>)
      requires forall i | 0 <= i < |network| :: ValidMessage(network[i])
      ensures Valid()
      ensures forall i | 0 <= i < |network| && (forall j | 0 <= j < i :: network[j].id != network[i].id) ::
                network[i].id in messages && messages[network[i].id] == network[i]
      ensures forall id | id in messages :: messages[id].id == id && messages[id] in network
    {
      var table: map<nat, Message> := map[];
      for i := 0 to |network|
        invariant forall j | 0 <= j < i && (forall k | 0 <= k < j :: network[k].id != network[j].id) ::
                    network[j].id in table && table[network[j].id] == network[j]
        invariant forall id | id in table :: table[id].id == id && exists j :: 0 <= j < i && table[id] == network[j]
        invariant forall j | 0 <= j < i :: network[j].id in table
      {
        if network[i].id !in table {
          table := table[network[i].id := network[i]];
        }
      }
      messages := table;
    }

    method Decode(frame: CanFrame)
      requires Valid()
      modifies frame
      ensures frame.id !in messages || |frame.payload| < messages[frame.id].size ==>
                frame.decoded == old(frame.decoded) && frame.msgName == old(frame.msgName)
      ensures frame.id in messages && |frame.payload| >= messages[frame.id].size ==>
                var m := messages[frame.id];
                && frame.msgName == m.name
                && frame.decoded == old(frame.decoded) + DecodedSignals(m, frame.payload, |m.signals|)
    {
      var raw := frame.payload;
      if frame.id !in messages {
        return;
      }
      var msg := messages[frame.id];
      if |frame.payload| < msg.size {
        return;
      }
      frame.msgName := msg.name;
      var muxSig := MuxSignal(msg.signals);

      for i := 0 to |msg.signals|
        invariant frame.msgName == msg.name
        invariant frame.decoded == old(frame.decoded) + DecodedSignals(msg, raw, i)
      {
        var sig := msg.signals[i];
        if sig.mux.Multiplexed? &&
           (muxSig.None? || DecodeRaw(raw, muxSig.value) % Pow2(64) != sig.mux.switchValue) {
          continue;
        }
        var yMin, yMax := sig.min, sig.max;
        if yMin == 0.0 && yMax == 0.0 {
          yMax := Pow2(sig.size) as real;
        }
        var rawDecoded := DecodeRaw(raw, sig);
        var phys := RawToPhys(sig, rawDecoded);
        if phys < yMin && yMin >= 0.0 && yMax > yMin {
          phys := RawToPhys(sig, MaskedWord(sig, rawDecoded));
        }
        frame.decoded := frame.decoded + [DecodedSignal(sig.name, phys, sig.unit, yMin, yMax)];
      }
    }
  }

  // ----- The round trip -----

  /** The encoded message holds exactly the signals of the DBC message, in any order. */
  ghost predicate Matches(sm: SendMessage, m: Message) {
    && sm.dlc == m.size
    && multiset(Signals(sm.signals)) == multiset(m.signals)
  }

  function Signals(signals: seq<SendSignal>): (r: seq<Signal>)
    ensures |r| == |signals|
  {
    seq(|signals|, i requires 0 <= i < |signals| => signals[i].sig)
  }

  lemma {:induction false} InsertedSignals(x: SendSignal, s: seq<SendSignal>, key: SendSignal -> int)
    ensures multiset(Signals(Insert(x, s, key))) == multiset{x.sig} + multiset(Signals(s))
  {
    if s == [] || key(x) <= key(s[0]) {
      assert Signals([x] + s) == [x.sig] + Signals(s);
    } else {
      InsertedSignals(x, s[1..], key);
      assert Signals([s[0]] + Insert(x, s[1..], key)) == [s[0].sig] + Signals(Insert(x, s[1..], key));
      assert Signals(s) == [s[0].sig] + Signals(s[1..]);
    }
  }

  lemma {:induction false} SortedSignals(s: seq<SendSignal>, key: SendSignal -> int)
    ensures multiset(Signals(SortBy(s, key))) == multiset(Signals(s))
  {
    if s != [] {
      SortedSignals(s[1..], key);
      InsertedSignals(s[0], SortBy(s[1..], key), key);
      assert Signals(s) == [s[0].sig] + Signals(s[1..]);
    }
  }

  /** The message has the signals that the program built for it, with any values. */
  predicate BuiltFrom(sm: SendMessage, m: Message) {
    sm.dlc == m.size && Signals(sm.signals) == Signals(ToSendMessage(m).signals)
  }

  /** A message as the program builds it matches its DBC message, and does so whatever values are set. */
  lemma BuiltMatches(sm: SendMessage, m: Message)
    requires BuiltFrom(sm, m)
    ensures Matches(sm, m)
    ensures forall k, v: real | 0 <= k < |sm.signals| :: BuiltFrom(WithValue(sm, k, v), m)
  {
    SortedSignals(ToSendSignals(m.signals), StartBitOf);
    assert Signals(ToSendSignals(m.signals)) == m.signals;
    forall k, v: real | 0 <= k < |sm.signals| ensures BuiltFrom(WithValue(sm, k, v), m) {
      assert Signals(WithValue(sm, k, v).signals) == Signals(sm.signals);
    }
  }

  /** No two signals of the DBC message share a bit. */
  ghost predicate DisjointLayout(m: Message) {
    forall i, j | 0 <= i < j < |m.signals| :: Disjoint(m.signals[i], m.signals[j])
  }

  lemma BuiltFits(sm: SendMessage, m: Message)
    requires ValidMessage(m) && DisjointLayout(m) && BuiltFrom(sm, m)
    ensures ValidSignals(sm.signals, sm.dlc) && PairwiseDisjoint(sm.signals)
  {
    var built := ToSendMessage(m).signals;
    SortKeepsValid(m);
    assert PairwiseDisjoint(ToSendSignals(m.signals));
    SortKeepsDisjoint(ToSendSignals(m.signals), StartBitOf);
    assert forall i | 0 <= i < |sm.signals| :: Signals(sm.signals)[i] == sm.signals[i].sig && Signals(built)[i] == built[i].sig;
  }

  /**
    How a set value comes back: with its name, unit and range, quantised towards
    zero by less than one step, and one full turn too high in the one case where
    the raw value is negative and contradicts a range that is not negative.
   */
  ghost predicate ComesBackAs(s: SendSignal, d: DecodedSignal)
    requires ValidSignal(s.sig)
  {
    var g, phys := s.sig, RawToPhys(s.sig, RawOf(s));
    && d.name == g.name && d.unit == g.unit && d.minVal == g.min
    && d.maxVal == (if g.min == 0.0 && g.max == 0.0 then Pow2(g.size) as real else g.max)
    && Abs(phys - s.value) < Abs(g.factor) && Abs(phys - g.offset) <= Abs(s.value - g.offset)
    && d.value == (if RawOf(s) < 0 && phys < g.min && g.min >= 0.0 && (g.max > g.min || (g.min == 0.0 && g.max == 0.0))
                   then RawToPhys(g, RawOf(s) + Pow2(g.size)) else phys)
  }

  /**
    What any payload shows of a signal: its name, unit and range, and the
    physical value of its raw value, re-read as unsigned where it is negative
    and contradicts the range.
   */
  lemma DecodedMeans(s: Signal, data: seq<bv8>)
    requires ValidSignal(s) && Fits(s, |data|)
    ensures var d, raw := DecodedOf(s, data), DecodeRaw(data, s);
            var phys := RawToPhys(s, raw);
            && d.name == s.name && d.unit == s.unit && d.minVal == s.min
            && d.maxVal == (if s.min == 0.0 && s.max == 0.0 then Pow2(s.size) as real else s.max)
            && d.value == (if raw < 0 && phys < s.min && s.min >= 0.0 && (s.max > s.min || (s.min == 0.0 && s.max == 0.0))
                           then RawToPhys(s, raw + Pow2(s.size)) else phys)
  {
    DecodedInRange(data, s);
    DecodedValueExact(s, DecodeRaw(data, s));
    ShownMaximum(s);
  }

  lemma {:induction false} SignalRoundTrip(sm: SendMessage, i: nat)
    requires ValidSignals(sm.signals, sm.dlc) && i < |sm.signals| && NotOverwritten(sm.signals, i)
    requires RawInRange(sm.signals[i].sig, RawOf(sm.signals[i]))
    ensures ComesBackAs(sm.signals[i], DecodedOf(sm.signals[i].sig, Payload(sm)))
  {
    var x := sm.signals[i];
    RawRoundTrip(sm, i);
    DecodedMeans(x.sig, Payload(sm));
    QuantisationError(x.sig, x.value);
    PhysToRawTowardsZero(x.sig, x.value);
  }

  /** The positions of the decoded signals: in order, exactly the selected ones. */
  lemma {:induction false} DecodedAreSelected(m: Message, data: seq<bv8>, n: nat) returns (pos: seq<nat>)
    requires ValidMessage(m) && m.size <= |data| && n <= |m.signals|
    ensures var d := DecodedSignals(m, data, n);
            && |pos| == |d|
            && (forall k | 0 <= k < |pos| :: pos[k] < n && Selected(m, m.signals[pos[k]], data) &&
                                             d[k] == DecodedOf(m.signals[pos[k]], data))
            && (forall j, k | 0 <= j < k < |pos| :: pos[j] < pos[k])
            && (forall i | 0 <= i < n && Selected(m, m.signals[i], data) :: i in pos)
  {
    pos := [];
    if n > 0 {
      pos := DecodedAreSelected(m, data, n - 1);
      if Selected(m, m.signals[n - 1], data) {
        pos := pos + [n - 1];
      }
    }
  }

  /** A multiplexed signal is decoded if and only if there is a switch and it holds the signal's switch value; others always are. */
  lemma SelectedMeans(m: Message, s: Signal, data: seq<bv8>)
    requires ValidMessage(m) && m.size <= |data|
    ensures !s.mux.Multiplexed? ==> Selected(m, s, data)
    ensures s.mux.Multiplexed? && (forall t | t in m.signals :: !t.mux.Switch?) ==> !Selected(m, s, data)
    ensures forall i | 0 <= i < |m.signals| && m.signals[i].mux.Switch? &&
                       (forall j | 0 <= j < |m.signals| && m.signals[j].mux.Switch? :: j == i) ::
              s.mux.Multiplexed? ==>
                (Selected(m, s, data) <==> DecodeRaw(data, m.signals[i]) % Pow2(64) == s.mux.switchValue)
  {
    var r := MuxSignal(m.signals);
    if r.Some? {
      var k :| 0 <= k < |m.signals| && m.signals[k] == r.value;
    }
  }

  /** In an encoded message the switch that was set selects: a multiplexed signal is decoded if and only if the raw switch is its value. */
  lemma SetSwitchSelects(sm: SendMessage, m: Message, i: nat, s: Signal)
    requires ValidMessage(m) && sm.dlc == m.size && ValidSignals(sm.signals, sm.dlc)
    requires i < |sm.signals| && NotOverwritten(sm.signals, i) && RawInRange(sm.signals[i].sig, RawOf(sm.signals[i]))
    requires MuxSignal(m.signals) == Some(sm.signals[i].sig) && s.mux.Multiplexed?
    ensures Selected(m, s, Payload(sm)) <==> RawOf(sm.signals[i]) % Pow2(64) == s.mux.switchValue
  {
    RawRoundTrip(sm, i);
  }

  lemma {:induction false} AllDecoded(m: Message, data: seq<bv8>, n: nat)
    requires ValidMessage(m) && m.size <= |data| && n <= |m.signals|
    requires forall i | 0 <= i < n :: Selected(m, m.signals[i], data)
    ensures |DecodedSignals(m, data, n)| == n
    ensures forall i | 0 <= i < n :: DecodedSignals(m, data, n)[i] == DecodedOf(m.signals[i], data)
  {
    if n > 0 {
      AllDecoded(m, data, n - 1);
    }
  }

  lemma MatchingSignal(sm: SendMessage, m: Message, j: nat) returns (i: nat)
    requires Matches(sm, m) && j < |m.signals|
    ensures i < |sm.signals| && sm.signals[i].sig == m.signals[j]
  {
    assert m.signals[j] in multiset(Signals(sm.signals));
    i :| 0 <= i < |sm.signals| && Signals(sm.signals)[i] == m.signals[j];
  }

  /**
    Decoding an encoded message of disjoint signals returns every signal, in DBC
    order, with the value that was set up to quantisation. The one exception is
    a negative raw value whose physical value contradicts the declared range.
   */
  lemma {:induction false} MessageRoundTrip(sm: SendMessage, m: Message)
    requires ValidMessage(m) && Matches(sm, m) && ValidSignals(sm.signals, sm.dlc)
    requires PairwiseDisjoint(sm.signals)
    requires forall i | 0 <= i < |sm.signals| :: RawInRange(sm.signals[i].sig, RawOf(sm.signals[i]))
    requires forall i | 0 <= i < |m.signals| :: !m.signals[i].mux.Multiplexed?
    ensures var d := DecodedSignals(m, Payload(sm), |m.signals|);
            && |d| == |m.signals|
            && (forall j | 0 <= j < |d| ::
                  exists i :: 0 <= i < |sm.signals| && sm.signals[i].sig == m.signals[j] && ComesBackAs(sm.signals[i], d[j]))
  {
    var d := DecodedSignals(m, Payload(sm), |m.signals|);
    AllDecoded(m, Payload(sm), |m.signals|);
    forall j | 0 <= j < |d|
      ensures exists i :: 0 <= i < |sm.signals| && sm.signals[i].sig == m.signals[j] && ComesBackAs(sm.signals[i], d[j])
    {
      var i := MatchingSignal(sm, m, j);
      assert NotOverwritten(sm.signals, i);
      SignalRoundTrip(sm, i);
    }
  }

  /**
    The program's own round trip: whatever values were set in the message it
    built for a DBC message of disjoint plain signals, decoding the payload
    returns them in DBC order, quantised, up to the one exception.
   */
  lemma ProgramRoundTrip(sm: SendMessage, m: Message)
    requires ValidMessage(m) && DisjointLayout(m) && BuiltFrom(sm, m)
    requires forall i | 0 <= i < |sm.signals| && ValidSignal(sm.signals[i].sig) ::
               RawInRange(sm.signals[i].sig, RawOf(sm.signals[i]))
    requires forall i | 0 <= i < |m.signals| :: !m.signals[i].mux.Multiplexed?
    ensures ValidSignals(sm.signals, sm.dlc)
    ensures var d := DecodedSignals(m, Payload(sm), |m.signals|);
            && |d| == |m.signals|
            && (forall j | 0 <= j < |d| ::
                  exists i :: 0 <= i < |sm.signals| && sm.signals[i].sig == m.signals[j] && ComesBackAs(sm.signals[i], d[j]))
  {
    BuiltFits(sm, m);
    BuiltMatches(sm, m);
    MessageRoundTrip(sm, m);
  }

  /** A signal declared unsigned, or with a negative minimum, always comes back. */
  lemma {:induction false} DeclaredRangeRoundTrip(s: Signal, raw: int)
    requires ValidSignal(s) && RawInRange(s, raw)
    requires !s.signed || s.min < 0.0
    ensures DecodedValue(s, raw) == RawToPhys(s, raw)
  {
    DecodedValueExact(s, raw);
  }

  /**
    A signal of range [0|0] comes back if and only if not both its raw and its
    physical value are negative; with a positive factor and no offset, if and
    only if it is not negative.
   */
  lemma ZeroRangeRoundTrip(s: Signal, raw: int)
    requires ValidSignal(s) && RawInRange(s, raw) && s.min == 0.0 && s.max == 0.0
    ensures DecodedValue(s, raw) == RawToPhys(s, raw) <==> !(raw < 0 && RawToPhys(s, raw) < 0.0)
    ensures s.factor > 0.0 && s.offset == 0.0 ==> (DecodedValue(s, raw) == RawToPhys(s, raw) <==> raw >= 0)
  {
    DecodedValueExact(s, raw);
    FullTurn(s, raw);
    if s.factor > 0.0 && s.offset == 0.0 { SignOfRaw(s, raw); }
  }

  lemma SignOfRaw(s: Signal, raw: int)
    requires s.factor > 0.0 && s.offset == 0.0
    ensures raw < 0 <==> RawToPhys(s, raw) < 0.0
  {
    if raw < 0 {
      PositiveProduct(-raw as real, s.factor);
      assert raw as real * s.factor == -(-raw as real * s.factor);
    } else if raw > 0 {
      PositiveProduct(raw as real, s.factor);
    }
  }

  /** A raw -1 in 14 bits under a range of [0|16383] is shown as 16383. */
  lemma ContradictingValueIsReread()
    ensures var s := Signal("", "", 0, 14, LittleEndian, true, 1.0, 0.0, 0.0, 16383.0, Plain);
            DecodedValue(s, -1) == 16383.0 && EffectiveMax(s) == 16383.0
  {
    var s := Signal("", "", 0, 14, LittleEndian, true, 1.0, 0.0, 0.0, 16383.0, Plain);
    assert Pow2(13) == 8192 && Pow2(14) == 16384 by {
      assert Pow2(4) == 16;
      assert Pow2(8) == 256;
      assert Pow2(12) == 4096;
    }
    DecodedValueExact(s, -1);
  }

  /** The steering target of config/vcan0.dbc, set to -1, is shown as 65535. */
  lemma NegativeTargetIsLost()
    ensures var s := Signal("SS_ELMO_TARGET_LWS", "", 0, 16, LittleEndian, true, 1.0, 0.0, 0.0, 0.0, Plain);
            RawInRange(s, PhysToRaw(s, -1.0)) && DecodedValue(s, PhysToRaw(s, -1.0)) == 65535.0
  {
    var s := Signal("SS_ELMO_TARGET_LWS", "", 0, 16, LittleEndian, true, 1.0, 0.0, 0.0, 0.0, Plain);
    assert PhysToRaw(s, -1.0) == -1;
    assert Pow2(15) == 32768 && Pow2(16) == 65536 by {
      assert Pow2(4) == 16;
      assert Pow2(8) == 256;
      assert Pow2(12) == 4096;
    }
    DecodedValueExact(s, -1);
  }
}
