/** Preset actions: base payloads from a shared model, and the sine re-encoder. */
module Presets {
  import opened Bits
  import opened Codec
  import opened Sending

  /** The position of the first signal of that name, or the number of signals. */
  function FirstNamed(signals: seq<SendSignal>, name: string): (r: nat)
    ensures r <= |signals|
    ensures r < |signals| ==> signals[r].name == name
    ensures forall i | 0 <= i < r :: signals[i].name != name
  {
    if signals == [] || signals[0].name == name then 0 else 1 + FirstNamed(signals[1..], name)
  }

  method FindSigIdx(msg: SendMessage, name: string) returns (k: int)
    ensures k == if FirstNamed(msg.signals, name) < |msg.signals| then FirstNamed(msg.signals, name) else -1
  {
    for i := 0 to |msg.signals|
      invariant forall j | 0 <= j < i :: msg.signals[j].name != name
    {
      if msg.signals[i].name == name {
        return i;
      }
    }
    return -1;
  }

  function ApplyOne(m: SendMessage, name: string, value: real): SendMessage {
    var k := FirstNamed(m.signals, name);
    if k < |m.signals| then WithValue(m, k, value) else m
  }

  function Apply(m: SendMessage, entries: seq<(string, real)>): SendMessage {
    if entries == [] then m
    else
      var last := entries[|entries| - 1];
      ApplyOne(Apply(m, entries[..|entries| - 1]), last.0, last.1)
  }

  /** The last value listed for the name, or `current` where none is listed. */
  function Listed(entries: seq<(string, real)>, name: string, current: real): real {
    if entries == [] then current
    else if entries[|entries| - 1].0 == name then entries[|entries| - 1].1
    else Listed(entries[..|entries| - 1], name, current)
  }

  /** Applying a preset gives the first signal of each name the last value listed for it, and touches nothing else. */
  lemma {:induction false} ApplySetsListed(m: SendMessage, entries: seq<(string, real)>)
    ensures var r := Apply(m, entries);
            && r == m.(signals := r.signals) && |r.signals| == |m.signals|
            && forall i | 0 <= i < |m.signals| ::
                 r.signals[i] == m.signals[i].(value :=
                   if FirstNamed(m.signals, m.signals[i].name) == i
                   then Listed(entries, m.signals[i].name, m.signals[i].value) else m.signals[i].value)
  {
    if entries != [] {
      var before := Apply(m, entries[..|entries| - 1]);
      var last := entries[|entries| - 1];
      ApplySetsListed(m, entries[..|entries| - 1]);
      forall name: string ensures FirstNamed(before.signals, name) == FirstNamed(m.signals, name) {
        SameNames(before.signals, m.signals, name);
      }
    }
  }

  lemma {:induction false} SameNames(a: seq<SendSignal>, b: seq<SendSignal>, name: string)
    requires |a| == |b| && forall i | 0 <= i < |a| :: a[i].name == b[i].name
    ensures FirstNamed(a, name) == FirstNamed(b, name)
  {
    var i, j := FirstNamed(a, name), FirstNamed(b, name);
    assert i < |a| ==> b[i].name == name;
    assert j < |b| ==> a[j].name == name;
  }

  method ApplySignalsAndEncode(model: SendModel, msgIdx: nat, entries: seq<(string, real)>) returns (data: array<bv8>)
    requires model.Valid() && msgIdx < |model.messages|
    modifies model
    ensures model.Valid() && fresh(data)
    ensures model.messages == old(model.messages)[msgIdx := Apply(old(model.messages)[msgIdx], entries)]
    ensures data[..] == Payload(model.messages[msgIdx])
  {
    for n := 0 to |entries|
      invariant model.Valid()
      invariant model.messages == old(model.messages)[msgIdx := Apply(old(model.messages)[msgIdx], entries[..n])]
    {
      assert entries[..n + 1][..n] == entries[..n];
      var k := FindSigIdx(model.messages[msgIdx], entries[n].0);
      if k >= 0 {
        model.SetValue(msgIdx, k, entries[n].1);
      }
    }
    assert entries[..|entries|] == entries;
    data := model.Encode(msgIdx);
  }

  // ----- The sine re-encoder -----

  function Clamped(v: real, lo: real, hi: real): real {
    if lo < hi then (if v < lo then lo else if hi < v then hi else v) else v
  }

  function Distance(x: real, v: real): real {
    if x >= v then x - v else v - x
  }

  /** `w` is the value of the range nearest to `v`. */
  ghost predicate Nearest(w: real, v: real, lo: real, hi: real) {
    lo <= w <= hi && forall x: real | lo <= x <= hi :: Distance(w, v) <= Distance(x, v)
  }

  /** Clamping goes to the nearest value of the range; an empty range does not clamp. */
  lemma ClampedIsNearest(v: real, lo: real, hi: real)
    ensures lo >= hi ==> Clamped(v, lo, hi) == v
    ensures lo < hi ==> Nearest(Clamped(v, lo, hi), v, lo, hi)
  {
  }

  /** Overwrites one signal in a copy of the captured base payload. */
  method EncodeFn(base: seq<bv8>, sig: Signal, lo: real, hi: real, v: real) returns (data: array<bv8>)
    requires ValidSignal(sig) && Fits(sig, |base|)
    ensures fresh(data)
    ensures data[..] == EncodeRaw(base, sig, PhysToRaw(sig, Clamped(v, lo, hi)))
    ensures lo >= hi ==> data[..] == EncodeRaw(base, sig, PhysToRaw(sig, v))
    ensures lo < hi ==> exists w :: Nearest(w, v, lo, hi) && data[..] == EncodeRaw(base, sig, PhysToRaw(sig, w))
  {
    ClampedIsNearest(v, lo, hi);
    var w := v;
    if lo < hi {
      w := if w < lo then lo else if hi < w then hi else w;
    }
    data := new bv8[|base|](i requires 0 <= i < |base| => base[i]);
    assert data[..] == base;
    EncodeInto(sig, PhysToRaw(sig, w), data);
  }

  lemma {:induction false} EncodeOverUpTo(data: seq<bv8>, a: seq<SendSignal>, b: seq<SendSignal>, k: nat, pos: nat)
    requires |a| == |b| && k < |a| && ValidSignals(a, |data|) && ValidSignals(b, |data|) && pos < 8 * |data|
    requires forall i | 0 <= i < |a| :: a[i].sig == b[i].sig && (i != k ==> a[i] == b[i])
    requires !Owns(a[k].sig, pos)
    ensures GetBit(EncodeOver(data, a), pos) == GetBit(EncodeOver(data, b), pos)
  {
    EncodeOverBit(data, a, pos);
    EncodeOverBit(data, b, pos);
    var i, j := LastOwner(a, pos), LastOwner(b, pos);
    assert i >= 0 ==> Owns(b[i].sig, pos);
    assert j >= 0 ==> Owns(a[j].sig, pos);
  }

  /**
    Overwriting signal `k` in the captured payload is the same as setting its
    clamped value in the model and encoding the whole message again, whatever
    the byte orders, provided no later signal overlaps it.
   */
  lemma OverwriteIsReencode(m: SendMessage, k: nat, v: real)
    requires ValidSignals(m.signals, m.dlc) && k < |m.signals| && NotOverwritten(m.signals, k)
    ensures var s := m.signals[k];
            var w := Clamped(v, s.minVal, s.maxVal);
            && ValidSignals(WithValue(m, k, w).signals, m.dlc)
            && EncodeRaw(Payload(m), s.sig, PhysToRaw(s.sig, w)) == Payload(WithValue(m, k, w))
  {
    var s := m.signals[k];
    var w := Clamped(v, s.minVal, s.maxVal);
    var m' := WithValue(m, k, w);
    var raw := PhysToRaw(s.sig, w);
    var a, b := EncodeRaw(Payload(m), s.sig, raw), Payload(m');
    EncodeRawBits(Payload(m), s.sig, raw);
    forall pos: nat | pos < 8 * m.dlc ensures GetBit(a, pos) == GetBit(b, pos) {
      if Owns(s.sig, pos) {
        var i: nat :| i < s.sig.size && Pos(s.sig, i) == pos;
        PayloadBit(m', pos);
        OwnBits(m'.signals, k, i);
      } else {
        EncodeOverUpTo(Zeros(m.dlc), m.signals, m'.signals, k, pos);
      }
    }
    SameBits(a, b);
  }

  /** Every signal disjoint from the overwritten one decodes as before. */
  lemma OverwriteKeepsOthers(base: seq<bv8>, s: Signal, raw: int, t: Signal)
    requires ValidSignal(t) && Fits(s, |base|) && Fits(t, |base|) && Disjoint(s, t)
    ensures DecodeRaw(EncodeRaw(base, s, raw), t) == DecodeRaw(base, t)
  {
    EncodeRawBits(base, s, raw);
    forall k: nat | k < t.size ensures !Owns(s, Pos(t, k)) {
      assert Owns(t, Pos(t, k));
    }
    DecodeRawFrame(EncodeRaw(base, s, raw), base, t);
  }

  /**
    The overwritten signal decodes to the raw value of the nearest value of its
    range, if that is a raw value of the signal; within a non-empty range it is
    less than one step away from it.
   */
  lemma OverwrittenDecodes(base: seq<bv8>, s: Signal, lo: real, hi: real, v: real)
    requires ValidSignal(s) && Fits(s, |base|) && RawInRange(s, PhysToRaw(s, Clamped(v, lo, hi)))
    ensures var raw := DecodeRaw(EncodeRaw(base, s, PhysToRaw(s, Clamped(v, lo, hi))), s);
            && (lo >= hi ==> Abs(RawToPhys(s, raw) - v) < Abs(s.factor))
            && (lo < hi ==> exists w :: Nearest(w, v, lo, hi) && Abs(RawToPhys(s, raw) - w) < Abs(s.factor))
  {
    var w := Clamped(v, lo, hi);
    var raw := PhysToRaw(s, w);
    EncodeRawBits(base, s, raw);
    DecodeRawBits(EncodeRaw(base, s, raw), s, raw);
    QuantisationError(s, w);
    ClampedIsNearest(v, lo, hi);
  }
}
