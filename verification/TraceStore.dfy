/** The trace: the latest frame of each id, with sticky decoded signals, and inter-arrival times. */
module TraceStore {
  datatype Signal = Signal(name: string, value: real)

  datatype Frame = Frame(id: nat, iface: string, dlc: nat, payload: seq<bv8>, time: int, name: string, decoded: seq<Signal>)

  class DataFrameSet {
    var frames: map<nat, Frame>
    var deltas: map<nat, int>

    constructor ()
      ensures frames == map[] && deltas == map[]
    {
      frames, deltas := map[], map[];
    }

    method Update(frame: Frame)
      modifies this
      ensures frames == old(frames)[frame.id := Merged(old(frames), frame)]
      ensures deltas == if frame.id in old(frames) then old(deltas)[frame.id := frame.time - old(frames)[frame.id].time]
                        else old(deltas)
    {
      if frame.id in frames {
        var prev := frames[frame.id];
        deltas := deltas[frame.id := frame.time - prev.time];
        if frame.decoded == [] && prev.decoded != [] {
          var merged := frame;
          for i := 0 to |prev.decoded|
            invariant merged == frame.(decoded := prev.decoded[..i])
            invariant deltas == old(deltas)[frame.id := frame.time - prev.time] && frames == old(frames)
          {
            merged := merged.(decoded := merged.decoded + [prev.decoded[i]]);
          }
          assert prev.decoded[..|prev.decoded|] == prev.decoded;
          if merged.name == "" {
            merged := merged.(name := prev.name);
          }
          frames := frames[frame.id := merged];
          return;
        }
      }
      frames := frames[frame.id := frame];
    }
  }

  function Merged(frames: map<nat, Frame>, f: Frame): Frame {
    if f.id in frames && f.decoded == [] && frames[f.id].decoded != []
    then f.(decoded := frames[f.id].decoded, name := if f.name == "" then frames[f.id].name else f.name)
    else f
  }

  // ----- The stores after a history -----

  function Frames(history: seq<Frame>): map<nat, Frame> {
    if history == [] then map[]
    else
      var f := history[|history| - 1];
      var before := Frames(history[..|history| - 1]);
      before[f.id := Merged(before, f)]
  }

  function Deltas(history: seq<Frame>): map<nat, int> {
    if history == [] then map[]
    else
      var f := history[|history| - 1];
      var before := history[..|history| - 1];
      if f.id in Frames(before) then Deltas(before)[f.id := f.time - Frames(before)[f.id].time] else Deltas(before)
  }

  /** Feeding a history to a fresh set gives these stores. */
  method Feed(history: seq<Frame>) returns (set_: DataFrameSet)
    ensures fresh(set_) && set_.frames == Frames(history) && set_.deltas == Deltas(history)
  {
    set_ := new DataFrameSet();
    for n := 0 to |history|
      invariant fresh(set_) && set_.frames == Frames(history[..n]) && set_.deltas == Deltas(history[..n])
    {
      assert history[..n + 1][..n] == history[..n];
      set_.Update(history[n]);
    }
    assert history[..|history|] == history;
  }

  // ----- References over the history alone -----

  /** The frames of one id, in order. */
  function Of(history: seq<Frame>, id: nat): seq<Frame> {
    if history == [] then []
    else
      var f := history[|history| - 1];
      Of(history[..|history| - 1], id) + (if f.id == id then [f] else [])
  }

  /** The decoded signals of the most recent frame that had any. */
  function LastDecoded(own: seq<Frame>): seq<Signal> {
    if own == [] then []
    else if own[|own| - 1].decoded != [] then own[|own| - 1].decoded
    else LastDecoded(own[..|own| - 1])
  }

  /** Going back from the end, the first frame with a name or with signals names the row. */
  function LastNamed(own: seq<Frame>): string {
    if own == [] then ""
    else
      var f := own[|own| - 1];
      if f.decoded != [] || f.name != "" then f.name
      else if LastDecoded(own) == [] then ""
      else LastNamed(own[..|own| - 1])
  }

  /**
    After any history the trace holds, for every id seen, the latest header,
    payload and timestamp with the most recent non-empty decoded signals; a
    delta exists if and only if two frames were seen, and is that of the last two.
   */
  lemma {:induction false} TraceAfterHistory(history: seq<Frame>, id: nat)
    ensures var own := Of(history, id);
            && (id in Frames(history) <==> own != [])
            && (own != [] ==>
                  Frames(history)[id] == own[|own| - 1].(decoded := LastDecoded(own), name := LastNamed(own)))
            && (id in Deltas(history) <==> |own| >= 2)
            && (|own| >= 2 ==> Deltas(history)[id] == own[|own| - 1].time - own[|own| - 2].time)
  {
    if history != [] {
      var f, before := history[|history| - 1], history[..|history| - 1];
      TraceAfterHistory(before, id);
      TraceAfterHistory(before, f.id);
      var own := Of(history, id);
      if f.id == id {
        assert own == Of(before, id) + [f];
        assert own[..|own| - 1] == Of(before, id);
        assert Frames(history)[id] == Merged(Frames(before), f);
        var rest := Of(before, id);
        assert LastDecoded(own) == if f.decoded != [] then f.decoded else LastDecoded(rest);
        assert LastNamed(own) == if f.decoded != [] || f.name != "" then f.name
                                 else if LastDecoded(rest) == [] then "" else LastNamed(rest);
      } else {
        assert own == Of(before, id);
      }
    }
  }

  /** The decoded signals really are those of a frame of that id, and no later one had any. */
  lemma {:induction false} LastDecodedIsLatest(own: seq<Frame>)
    ensures (LastDecoded(own) == [] <==> forall i | 0 <= i < |own| :: own[i].decoded == [])
    ensures LastDecoded(own) != [] ==>
              exists i :: 0 <= i < |own| && own[i].decoded == LastDecoded(own) &&
                          forall j | i < j < |own| :: own[j].decoded == []
  {
    if own != [] && own[|own| - 1].decoded == [] {
      var rest := own[..|own| - 1];
      LastDecodedIsLatest(rest);
      if LastDecoded(rest) != [] {
        var i :| 0 <= i < |rest| && rest[i].decoded == LastDecoded(rest) && forall j | i < j < |rest| :: rest[j].decoded == [];
        assert own[i].decoded == LastDecoded(own);
      }
    }
  }
}
