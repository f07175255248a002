/**
  The send models behind the terminal interface: what its commands and the sine
  actions it created write into them, and the payloads that are taken from them.
 */
module TuiModels {
  import Bits
  import opened Codec
  import opened Sending
  import T = TuiEvents
  import P = TuiProperties

  /** The messages of each interface's model, with the values of their signals. */
  type Models = map<string, seq<SendMessage>>

  datatype Write = Write(iface: string, msg: nat, sig: nat, value: real)

  datatype Act =
    | Issued(command: T.Command)
    | SineFires(write: Write)      // a sine action created in the interface encodes a value

  predicate InRange(models: Models, iface: string, msg: nat) {
    iface in models && msg < |models[iface]|
  }

  /** What the act writes into the models. */
  function WriteOf(a: Act): seq<Write> {
    match a
    case SineFires(w) => [w]
    case Issued(SetValue(iface, msg, sig, value)) => [Write(iface, msg, sig, value)]
    case _ => []
  }

  function Written(models: Models, w: Write): Models {
    if !InRange(models, w.iface, w.msg) || w.sig >= |models[w.iface][w.msg].signals| then models
    else models[w.iface := models[w.iface][w.msg := WithValue(models[w.iface][w.msg], w.sig, w.value)]]
  }

  function Done(models: Models, a: Act): Models {
    if WriteOf(a) == [] then models else Written(models, WriteOf(a)[0])
  }

  function After(models: Models, acts: seq<Act>): Models {
    if acts == [] then models else Done(After(models, acts[..|acts| - 1]), acts[|acts| - 1])
  }

  // ----- The values after any history -----

  /** The value last written to the signal, or `initial` where there is none. */
  function LastWritten(acts: seq<Act>, iface: string, msg: nat, sig: nat, initial: real): real {
    if acts == [] then initial
    else
      var w := WriteOf(acts[|acts| - 1]);
      if w != [] && w[0].iface == iface && w[0].msg == msg && w[0].sig == sig then w[0].value
      else LastWritten(acts[..|acts| - 1], iface, msg, sig, initial)
  }

  /** `m'` is `m` with those values. */
  predicate HasValues(m: SendMessage, m': SendMessage, acts: seq<Act>, iface: string, msg: nat) {
    && m' == m.(signals := m'.signals) && |m'.signals| == |m.signals|
    && forall k | 0 <= k < |m.signals| ::
         m'.signals[k] == m.signals[k].(value := LastWritten(acts, iface, msg, k, m.signals[k].value))
  }

  /** After any history every signal holds the value last written to it, by the interface or by a sine action. */
  lemma {:induction false} ModelsHoldLastWritten(models: Models, acts: seq<Act>, iface: string, msg: nat)
    requires InRange(models, iface, msg)
    ensures After(models, acts).Keys == models.Keys && |After(models, acts)[iface]| == |models[iface]|
    ensures HasValues(models[iface][msg], After(models, acts)[iface][msg], acts, iface, msg)
  {
    if acts != [] {
      var shorter, a := acts[..|acts| - 1], acts[|acts| - 1];
      var before := After(models, shorter);
      ModelsHoldLastWritten(models, shorter, iface, msg);
      var m, m' := before[iface][msg], Done(before, a)[iface][msg];
      if WriteOf(a) == [] || WriteOf(a)[0].iface != iface || WriteOf(a)[0].msg != msg {
        assert m' == m;
      } else if WriteOf(a)[0].sig < |m.signals| {
        assert m' == WithValue(m, WriteOf(a)[0].sig, WriteOf(a)[0].value);
      }
    }
  }

  /** An edit, or a value encoded by a sine action, is in the model from then on; nothing else writes there. */
  lemma WritesMean(models: Models, acts: seq<Act>, a: Act)
    ensures var before, after := After(models, acts), After(models, acts + [a]);
            match a
            case SineFires(w) =>
              InRange(before, w.iface, w.msg) && w.sig < |before[w.iface][w.msg].signals| ==>
                InRange(after, w.iface, w.msg) && w.sig < |after[w.iface][w.msg].signals| &&
                after[w.iface][w.msg].signals[w.sig].value == w.value
            case Issued(SetValue(iface, msg, sig, value)) =>
              InRange(before, iface, msg) && sig < |before[iface][msg].signals| ==>
                InRange(after, iface, msg) && sig < |after[iface][msg].signals| && after[iface][msg].signals[sig].value == value
            case Issued(_) => after == before
  {
    assert (acts + [a])[..|acts|] == acts;
  }

  // ----- The payloads -----

  /** The message of which the act takes the payload, for a new action, an updated one, or a sine transmission. */
  function Taken(a: Act): seq<(string, nat)> {
    match a
    case Issued(CreateSingle(iface, msg)) => [(iface, msg)]
    case Issued(CreatePeriodic(iface, msg, _)) => [(iface, msg)]
    case Issued(UpdatePayload(_, iface, msg)) => [(iface, msg)]
    case SineFires(w) => [(w.iface, w.msg)]
    case _ => []
  }

  /** A payload is taken for a new single or periodic action, for an update, and for every firing of a sine. */
  lemma TakenMeans(a: Act)
    ensures match a
            case SineFires(w) => Taken(a) == [(w.iface, w.msg)]
            case Issued(CreateSingle(iface, msg)) => Taken(a) == [(iface, msg)]
            case Issued(CreatePeriodic(iface, msg, _)) => Taken(a) == [(iface, msg)]
            case Issued(UpdatePayload(_, iface, msg)) => Taken(a) == [(iface, msg)]
            case _ => Taken(a) == []
  {
  }

  predicate ValidModels(models: Models) {
    forall iface | iface in models :: ValidMessages(models[iface])
  }

  predicate ValidMessages(messages: seq<SendMessage>) {
    forall i | 0 <= i < |messages| :: ValidSignals(messages[i].signals, messages[i].dlc)
  }

  /** The configuration that the event handler sees agrees with the models. */
  predicate Shapes(c: T.Config, models: Models) {
    && c.models.Keys == models.Keys
    && forall iface | iface in models :: SameShape(c.models[iface], models[iface])
  }

  predicate SameShape(shape: seq<T.Message>, messages: seq<SendMessage>) {
    |shape| == |messages| && forall i | 0 <= i < |shape| :: shape[i].signals == |messages[i].signals|
  }

  /** The payload of a message whose signals have those values. */
  ghost predicate Carries(data: seq<bv8>, m: SendMessage, acts: seq<Act>, iface: string, msg: nat)
    requires ValidSignals(m.signals, m.dlc)
  {
    && |data| == m.dlc
    && (forall pos: nat | pos < 8 * m.dlc && LastOwner(m.signals, pos) < 0 :: !Bits.GetBit(data, pos))
    && (forall k | 0 <= k < |m.signals| && NotOverwritten(m.signals, k) :: CarriesSignal(data, m, acts, iface, msg, k))
  }

  /** The bits of the signal are those of the raw value last written, and decode to it if it is in range. */
  ghost predicate CarriesSignal(data: seq<bv8>, m: SendMessage, acts: seq<Act>, iface: string, msg: nat, k: nat)
    requires k < |m.signals| && ValidSignal(m.signals[k].sig) && Fits(m.signals[k].sig, |data|)
  {
    var s := m.signals[k];
    var raw := PhysToRaw(s.sig, LastWritten(acts, iface, msg, k, s.value));
    && (forall i: nat | i < s.sig.size :: Bits.GetBit(data, Pos(s.sig, i)) == Bits.ToBits(raw, s.sig.size)[i])
    && (RawInRange(s.sig, raw) ==> DecodeRaw(data, s.sig) == raw)
  }

  lemma SameOwners(a: seq<SendSignal>, b: seq<SendSignal>, pos: nat)
    requires |a| == |b| && forall i | 0 <= i < |a| :: a[i].sig == b[i].sig
    ensures LastOwner(a, pos) == LastOwner(b, pos)
  {
    var i, j := LastOwner(a, pos), LastOwner(b, pos);
    assert i >= 0 ==> Owns(b[i].sig, pos);
    assert j >= 0 ==> Owns(a[j].sig, pos);
  }

  lemma SignalCarried(m: SendMessage, m': SendMessage, acts: seq<Act>, iface: string, msg: nat, k: nat)
    requires ValidSignals(m.signals, m.dlc) && HasValues(m, m', acts, iface, msg)
    requires k < |m.signals| && NotOverwritten(m.signals, k)
    ensures ValidSignals(m'.signals, m'.dlc) && CarriesSignal(Payload(m'), m, acts, iface, msg, k)
  {
    var s := m'.signals[k];
    assert NotOverwritten(m'.signals, k);
    forall i: nat | i < s.sig.size
      ensures Bits.GetBit(Payload(m'), Pos(s.sig, i)) == Bits.ToBits(RawOf(s), s.sig.size)[i]
    {
      PayloadBit(m', Pos(s.sig, i));
      OwnBits(m'.signals, k, i);
    }
    if RawInRange(s.sig, RawOf(s)) {
      RawRoundTrip(m', k);
    }
  }

  lemma ValuesCarried(m: SendMessage, m': SendMessage, acts: seq<Act>, iface: string, msg: nat)
    requires ValidSignals(m.signals, m.dlc) && HasValues(m, m', acts, iface, msg)
    ensures ValidSignals(m'.signals, m'.dlc) && Carries(Payload(m'), m, acts, iface, msg)
  {
    assert forall i | 0 <= i < |m.signals| :: m'.signals[i].sig == m.signals[i].sig;
    forall pos: nat | pos < 8 * m.dlc && LastOwner(m.signals, pos) < 0 ensures !Bits.GetBit(Payload(m'), pos) {
      PayloadBit(m', pos);
      SameOwners(m.signals, m'.signals, pos);
    }
    forall k | 0 <= k < |m.signals| && NotOverwritten(m.signals, k)
      ensures CarriesSignal(Payload(m'), m, acts, iface, msg, k)
    {
      SignalCarried(m, m', acts, iface, msg, k);
    }
  }

  /**
    Every payload that the interface takes exists, and carries, bit for bit, the
    values last written: committed in the interface, or encoded by a sine action
    it created, whose values stay in the model for later actions to send.
   */
  lemma PayloadsCarryLastWritten(c: T.Config, models: Models, acts: seq<Act>, a: Act)
    requires ValidModels(models) && Shapes(c, models)
    requires a.Issued? ==> P.Sound(c, a.command)
    requires a.SineFires? ==> InRange(models, a.write.iface, a.write.msg)
    ensures forall t | t in Taken(a) ::
              && InRange(models, t.0, t.1)
              && InRange(After(models, acts + [a]), t.0, t.1)
              && ValidMessages(models[t.0])
              && var m := After(models, acts + [a])[t.0][t.1];
              && ValidSignals(m.signals, m.dlc)
              && Carries(Payload(m), models[t.0][t.1], acts + [a], t.0, t.1)
  {
    forall t | t in Taken(a)
      ensures InRange(models, t.0, t.1) && InRange(After(models, acts + [a]), t.0, t.1) && ValidMessages(models[t.0])
      ensures var m := After(models, acts + [a])[t.0][t.1];
              ValidSignals(m.signals, m.dlc) && Carries(Payload(m), models[t.0][t.1], acts + [a], t.0, t.1)
    {
      assert InRange(models, t.0, t.1);
      ModelsHoldLastWritten(models, acts + [a], t.0, t.1);
      ValuesCarried(models[t.0][t.1], After(models, acts + [a])[t.0][t.1], acts + [a], t.0, t.1);
    }
  }

  /** The sine encoder of the interface: unlike that of the presets it does not clamp, and it writes the shared model. */
  method SineEncode(model: SendModel, msg: nat, sig: nat, v: real) returns (data: array<bv8>)
    requires model.Valid() && msg < |model.messages| && sig < |model.messages[msg].signals|
    modifies model
    ensures model.Valid() && fresh(data)
    ensures model.messages == old(model.messages)[msg := WithValue(old(model.messages)[msg], sig, v)]
    ensures data[..] == Payload(model.messages[msg])
  {
    model.SetValue(msg, sig, v);
    data := model.Encode(msg);
  }
}
