/** The editable copy of a DBC from which messages are encoded. */
module Sending {
  import opened Bits
  import opened Sorting
  import opened Codec

  datatype Message = Message(id: nat, name: string, size: nat, signals: seq<Signal>)

  datatype SendSignal = SendSignal(name: string, unit: string, minVal: real, maxVal: real, value: real, sig: Signal)

  datatype SendMessage = SendMessage(id: nat, name: string, dlc: nat, signals: seq<SendSignal>)

  predicate ValidSignals(signals: seq<SendSignal>, dlc: nat) {
    forall i | 0 <= i < |signals| :: ValidSignal(signals[i].sig) && Fits(signals[i].sig, dlc)
  }

  predicate ValidMessage(m: Message) {
    forall i | 0 <= i < |m.signals| :: ValidSignal(m.signals[i]) && Fits(m.signals[i], m.size)
  }

  // ----- The encoding of a message -----

  function RawOf(s: SendSignal): int
    requires ValidSignal(s.sig)
  {
    PhysToRaw(s.sig, s.value)
  }

  /** Writes the signals in list order over `data`. */
  function EncodeOver(data: seq<bv8>, signals: seq<SendSignal>): (r: seq<bv8>)
    requires ValidSignals(signals, |data|)
    ensures |r| == |data|
  {
    if signals == [] then data
    else
      var last := signals[|signals| - 1];
      EncodeRaw(EncodeOver(data, signals[..|signals| - 1]), last.sig, RawOf(last))
  }

  function Zeros(n: nat): (r: seq<bv8>)
    ensures |r| == n
  {
    seq(n, _ => 0)
  }

  function Payload(m: SendMessage): (r: seq<bv8>)
    requires ValidSignals(m.signals, m.dlc)
    ensures |r| == m.dlc
  {
    EncodeOver(Zeros(m.dlc), m.signals)
  }

  /** The last signal in the list that owns the bit, or -1. */
  function LastOwner(signals: seq<SendSignal>, pos: nat): (r: int)
    ensures -1 <= r < |signals|
    ensures r >= 0 ==> Owns(signals[r].sig, pos)
    ensures forall j | r < j < |signals| :: !Owns(signals[j].sig, pos)
  {
    if signals == [] then -1
    else if Owns(signals[|signals| - 1].sig, pos) then |signals| - 1
    else LastOwner(signals[..|signals| - 1], pos)
  }

  /** The bit of the raw value that the signal keeps at `pos`. */
  predicate RawBitAt(s: SendSignal, pos: nat)
    requires ValidSignal(s.sig)
  {
    exists k: nat :: k < s.sig.size && Pos(s.sig, k) == pos && ToBits(RawOf(s), s.sig.size)[k]
  }

  lemma {:induction false} EncodeOverBit(data: seq<bv8>, signals: seq<SendSignal>, pos: nat)
    requires ValidSignals(signals, |data|) && pos < 8 * |data|
    ensures var i := LastOwner(signals, pos);
            GetBit(EncodeOver(data, signals), pos) == if i < 0 then GetBit(data, pos) else RawBitAt(signals[i], pos)
  {
    if signals != [] {
      var rest, last := signals[..|signals| - 1], signals[|signals| - 1];
      EncodeRawBits(EncodeOver(data, rest), last.sig, RawOf(last));
      if Owns(last.sig, pos) {
        var k: nat :| k < last.sig.size && Pos(last.sig, k) == pos;
        forall j: nat | j < last.sig.size && Pos(last.sig, j) == pos ensures j == k {
          PosInjective(last.sig, j, k);
        }
      } else {
        EncodeOverBit(data, rest, pos);
      }
    }
  }

  /** Every payload bit is the raw bit of the last signal written there, and 0 where there is none. */
  lemma PayloadBit(m: SendMessage, pos: nat)
    requires ValidSignals(m.signals, m.dlc) && pos < 8 * m.dlc
    ensures var i := LastOwner(m.signals, pos);
            GetBit(Payload(m), pos) <==> i >= 0 && RawBitAt(m.signals[i], pos)
  {
    EncodeOverBit(Zeros(m.dlc), m.signals, pos);
    var k := pos % 8;
    assert (0 as bv8) & Mask(k) == 0;
  }

  ghost predicate PairwiseDisjoint(signals: seq<SendSignal>) {
    forall i, j | 0 <= i < j < |signals| :: Disjoint(signals[i].sig, signals[j].sig)
  }

  lemma SameOwner(a: seq<SendSignal>, b: seq<SendSignal>, pos: nat)
    requires multiset(a) == multiset(b) && PairwiseDisjoint(a) && LastOwner(a, pos) >= 0
    ensures LastOwner(b, pos) >= 0 && a[LastOwner(a, pos)] == b[LastOwner(b, pos)]
  {
    var i := LastOwner(a, pos);
    assert a[i] in multiset(b);
    var j' :| 0 <= j' < |b| && b[j'] == a[i];
    var j := LastOwner(b, pos);
    assert b[j] in multiset(a);
    var i' :| 0 <= i' < |a| && a[i'] == b[j];
    assert i == i';
  }

  /** With disjoint signals the order of writing, and so the sort, never shows in the payload. */
  lemma {:induction false} OrderIrrelevant(data: seq<bv8>, a: seq<SendSignal>, b: seq<SendSignal>)
    requires multiset(a) == multiset(b) && PairwiseDisjoint(a)
    requires ValidSignals(a, |data|) && ValidSignals(b, |data|)
    ensures EncodeOver(data, a) == EncodeOver(data, b)
  {
    forall pos: nat | pos < 8 * |data|
      ensures GetBit(EncodeOver(data, a), pos) == GetBit(EncodeOver(data, b), pos)
    {
      EncodeOverBit(data, a, pos);
      EncodeOverBit(data, b, pos);
      if LastOwner(a, pos) >= 0 {
        SameOwner(a, b, pos);
      } else {
        UnownedInBoth(a, b, pos);
      }
    }
    SameBits(EncodeOver(data, a), EncodeOver(data, b));
  }

  lemma UnownedInBoth(a: seq<SendSignal>, b: seq<SendSignal>, pos: nat)
    requires multiset(a) == multiset(b) && LastOwner(a, pos) < 0
    ensures LastOwner(b, pos) < 0
  {
    forall j | 0 <= j < |b| ensures !Owns(b[j].sig, pos) {
      assert b[j] in multiset(a);
    }
  }

  /** No signal written after `i` touches it; implied by a disjoint layout. */
  ghost predicate NotOverwritten(signals: seq<SendSignal>, i: nat)
    requires i < |signals|
  {
    forall j | i < j < |signals| :: Disjoint(signals[i].sig, signals[j].sig)
  }

  lemma OwnBits(signals: seq<SendSignal>, i: nat, k: nat)
    requires i < |signals| && NotOverwritten(signals, i) && ValidSignal(signals[i].sig) && k < signals[i].sig.size
    ensures LastOwner(signals, Pos(signals[i].sig, k)) == i
    ensures RawBitAt(signals[i], Pos(signals[i].sig, k)) == ToBits(RawOf(signals[i]), signals[i].sig.size)[k]
  {
    var s, pos := signals[i].sig, Pos(signals[i].sig, k);
    assert Owns(s, pos);
    forall j: nat | j < s.size && Pos(s, j) == pos ensures j == k {
      PosInjective(s, j, k);
    }
  }

  /** A raw value in range survives encoding and decoding when no later signal overlaps it. */
  lemma RawRoundTrip(m: SendMessage, i: nat)
    requires ValidSignals(m.signals, m.dlc) && i < |m.signals| && NotOverwritten(m.signals, i)
    requires RawInRange(m.signals[i].sig, RawOf(m.signals[i]))
    ensures DecodeRaw(Payload(m), m.signals[i].sig) == RawOf(m.signals[i])
  {
    var s := m.signals[i];
    forall k: nat | k < s.sig.size
      ensures GetBit(Payload(m), Pos(s.sig, k)) == ToBits(RawOf(s), s.sig.size)[k]
    {
      PayloadBit(m, Pos(s.sig, k));
      OwnBits(m.signals, i, k);
    }
    DecodeRawBits(Payload(m), s.sig, RawOf(s));
  }

  // ----- The model -----

  function ToSendSignal(s: Signal): SendSignal {
    SendSignal(s.name, s.unit, s.min, s.max, 0.0, s)
  }

  function ToSendSignals(signals: seq<Signal>): (r: seq<SendSignal>)
    ensures |r| == |signals|
  {
    seq(|signals|, i requires 0 <= i < |signals| => ToSendSignal(signals[i]))
  }

  function StartBitOf(s: SendSignal): int {
    s.sig.startBit
  }

  function IdOf(m: SendMessage): int {
    m.id
  }

  function ToSendMessage(m: Message): SendMessage {
    SendMessage(m.id, m.name, m.size, SortBy(ToSendSignals(m.signals), StartBitOf))
  }

  function ToSendMessages(network: seq<Message>): seq<SendMessage> {
    seq(|network|, i requires 0 <= i < |network| => ToSendMessage(network[i]))
  }

  /**
    The message built for a DBC message has its id, name and size. Its signals
    carry the names, units and ranges of their DBC signals, are 0 at first, and
    stand in the order of their start bits.
   */
  lemma BuiltMessage(m: Message)
    ensures var b := ToSendMessage(m);
            && b.id == m.id && b.name == m.name && b.dlc == m.size && |b.signals| == |m.signals|
            && (forall i | 0 <= i < |b.signals| ::
                  var x := b.signals[i];
                  && x.sig in m.signals && x.name == x.sig.name && x.unit == x.sig.unit
                  && x.minVal == x.sig.min && x.maxVal == x.sig.max && x.value == 0.0)
            && (forall i, j | 0 <= i < j < |b.signals| :: b.signals[i].sig.startBit <= b.signals[j].sig.startBit)
  {
    var given := ToSendSignals(m.signals);
    var r := SortBy(given, StartBitOf);
    SortElements(given, StartBitOf);
    SortIsSorted(given, StartBitOf);
    assert |multiset(r)| == |r| && |multiset(given)| == |given|;
    forall i | 0 <= i < |r|
      ensures r[i].sig in m.signals && r[i] == ToSendSignal(r[i].sig)
    {
      assert r[i] in multiset(given);
    }
    forall i, j | 0 <= i < j < |r| ensures r[i].sig.startBit <= r[j].sig.startBit {
      assert StartBitOf(r[i]) <= StartBitOf(r[j]);
    }
  }

  lemma SortKeepsValid(m: Message)
    requires ValidMessage(m)
    ensures ValidSignals(ToSendMessage(m).signals, m.size)
  {
    SortKeepsValidSignals(ToSendSignals(m.signals), StartBitOf, m.size);
  }

  lemma {:induction false} InsertKeepsDisjoint(x: SendSignal, s: seq<SendSignal>, key: SendSignal -> int)
    requires PairwiseDisjoint(s) && forall i | 0 <= i < |s| :: Disjoint(x.sig, s[i].sig)
    ensures PairwiseDisjoint(Insert(x, s, key))
  {
    if s != [] && key(x) > key(s[0]) {
      var rest := Insert(x, s[1..], key);
      InsertKeepsDisjoint(x, s[1..], key);
      InsertElements(x, s[1..], key);
      forall j | 0 <= j < |rest| ensures Disjoint(s[0].sig, rest[j].sig) {
        assert rest[j] in multiset(rest);
        assert rest[j] == x || rest[j] in s[1..];
        assert Disjoint(x.sig, s[0].sig);
      }
    }
  }

  lemma {:induction false} SortKeepsDisjoint(s: seq<SendSignal>, key: SendSignal -> int)
    requires PairwiseDisjoint(s)
    ensures PairwiseDisjoint(SortBy(s, key))
  {
    if s != [] {
      var rest := SortBy(s[1..], key);
      SortKeepsDisjoint(s[1..], key);
      SortElements(s[1..], key);
      forall j | 0 <= j < |rest| ensures Disjoint(s[0].sig, rest[j].sig) {
        assert rest[j] in multiset(rest);
        assert rest[j] in s[1..];
      }
      InsertKeepsDisjoint(s[0], rest, key);
    }
  }

  lemma SortKeepsValidSignals(s: seq<SendSignal>, key: SendSignal -> int, n: nat)
    requires ValidSignals(s, n)
    ensures ValidSignals(SortBy(s, key), n)
  {
    SortElements(s, key);
    forall i | 0 <= i < |SortBy(s, key)| ensures ValidSignal(SortBy(s, key)[i].sig) && Fits(SortBy(s, key)[i].sig, n) {
      assert SortBy(s, key)[i] in multiset(s);
    }
  }

  /** Sorting disjoint signals, by start bit or any other key, leaves the payload as that of the given order. */
  lemma SortLeavesPayload(s: seq<SendSignal>, key: SendSignal -> int, n: nat)
    requires ValidSignals(s, n) && PairwiseDisjoint(s)
    ensures ValidSignals(SortBy(s, key), n) && EncodeOver(Zeros(n), SortBy(s, key)) == EncodeOver(Zeros(n), s)
  {
    SortKeepsValidSignals(s, key, n);
    SortElements(s, key);
    OrderIrrelevant(Zeros(n), s, SortBy(s, key));
  }

  lemma BuiltModel(network: seq<Message>)
    requires forall i | 0 <= i < |network| :: ValidMessage(network[i])
    ensures var r := SortBy(ToSendMessages(network), IdOf);
            && (forall i | 0 <= i < |r| :: ValidSignals(r[i].signals, r[i].dlc))
            && (forall i, j | 0 <= i < j < |r| :: r[i].id <= r[j].id)
            && (forall i | 0 <= i < |r| :: exists j :: 0 <= j < |network| && r[i] == ToSendMessage(network[j]))
            && (forall j | 0 <= j < |network| :: ToSendMessage(network[j]) in r)
  {
    var built := ToSendMessages(network);
    var r := SortBy(built, IdOf);
    SortElements(built, IdOf);
    SortIsSorted(built, IdOf);
    forall i | 0 <= i < |r|
      ensures ValidSignals(r[i].signals, r[i].dlc)
      ensures exists j :: 0 <= j < |network| && r[i] == ToSendMessage(network[j])
    {
      assert r[i] in multiset(built);
      var j :| 0 <= j < |network| && r[i] == ToSendMessage(network[j]);
      SortKeepsValid(network[j]);
    }
    forall i, j | 0 <= i < j < |r| ensures r[i].id <= r[j].id {
      assert IdOf(r[i]) <= IdOf(r[j]);
    }
    forall j | 0 <= j < |network| ensures ToSendMessage(network[j]) in r {
      assert built[j] in multiset(r);
    }
  }

  /** Writes one signal into a byte buffer in place, bit by bit. */
  method EncodeInto(s: Signal, raw: int, data: array<bv8>)
    requires Fits(s, data.Length)
    modifies data
    ensures data[..] == EncodeRaw(old(data[..]), s, raw)
  {
    var bits := ToBits(raw, s.size);
    var k: nat := 0;
    while k < s.size
      invariant k <= s.size
      invariant data[..] == PutBits(old(data[..]), s, bits, k)
    {
      var pos := Pos(s, k);
      data[pos / 8] := WithBit(data[pos / 8], pos % 8, bits[k]);
      k := k + 1;
    }
  }

  class SendModel {
    var messages: seq<SendMessage>

    predicate Valid()
      reads this
    {
      forall i | 0 <= i < |messages| :: ValidSignals(messages[i].signals, messages[i].dlc)
    }

    constructor (network: seq<Message>)
      requires forall i | 0 <= i < |network| :: ValidMessage(network[i])
      ensures Valid()
      ensures messages == SortBy(ToSendMessages(network), IdOf)
      ensures forall i, j | 0 <= i < j < |messages| :: messages[i].id <= messages[j].id
      ensures forall i | 0 <= i < |messages| :: exists j :: 0 <= j < |network| && messages[i] == ToSendMessage(network[j])
      ensures forall j | 0 <= j < |network| :: ToSendMessage(network[j]) in messages
    {
      var built: seq<SendMessage> := [];
      for n := 0 to |network|
        invariant |built| == n
        invariant forall i | 0 <= i < n :: built[i] == ToSendMessage(network[i])
      {
        var msg := network[n];
        var signals: seq<SendSignal> := [];
        for k := 0 to |msg.signals|
          invariant |signals| == k
          invariant forall i | 0 <= i < k :: signals[i] == ToSendSignal(msg.signals[i])
        {
          var sig := msg.signals[k];
          signals := signals + [SendSignal(sig.name, sig.unit, sig.min, sig.max, 0.0, sig)];
        }
        assert signals == ToSendSignals(msg.signals);
        signals := SortBy(signals, StartBitOf);
        built := built + [SendMessage(msg.id, msg.name, msg.size, signals)];
      }
      assert built == ToSendMessages(network);
      BuiltModel(network);
      messages := SortBy(built, IdOf);
    }

    method SetValue(msgIdx: nat, sigIdx: nat, value: real)
      requires Valid() && msgIdx < |messages| && sigIdx < |messages[msgIdx].signals|
      modifies this
      ensures Valid()
      ensures messages == old(messages)[msgIdx := WithValue(old(messages)[msgIdx], sigIdx, value)]
    {
      var m := messages[msgIdx];
      messages := messages[msgIdx := m.(signals := m.signals[sigIdx := m.signals[sigIdx].(value := value)])];
    }

    method Encode(msgIdx: nat) returns (data: array<bv8>)
      requires Valid() && msgIdx < |messages|
      ensures fresh(data)
      ensures data[..] == Payload(messages[msgIdx])
    {
      var sm := messages[msgIdx];
      data := new bv8[sm.dlc](_ => 0);
      assert data[..] == Zeros(sm.dlc);
      for i := 0 to |sm.signals|
        invariant fresh(data) && data.Length == sm.dlc
        invariant ValidSignals(sm.signals[..i], data.Length)
        invariant data[..] == EncodeOver(Zeros(sm.dlc), sm.signals[..i])
      {
        var ss := sm.signals[i];
        var raw := PhysToRaw(ss.sig, ss.value);
        EncodeInto(ss.sig, raw, data);
        assert sm.signals[..i + 1][..i] == sm.signals[..i];
      }
      assert sm.signals[..|sm.signals|] == sm.signals;
    }
  }

  function WithValue(m: SendMessage, sigIdx: nat, value: real): SendMessage
    requires sigIdx < |m.signals|
  {
    m.(signals := m.signals[sigIdx := m.signals[sigIdx].(value := value)])
  }
}
