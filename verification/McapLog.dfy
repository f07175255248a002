/** Recording frames to a log file with cached schemas and channels, and replaying the raw channels. */
module McapLog {
  import opened Basics
  import opened Sorting
  import opened Topics

  datatype FieldType = Double | UInt32 | UInt32List

  datatype Field = Field(name: string, ftype: FieldType)

  /** A message type; its schema is registered under `fullName`. */
  datatype Descriptor = Descriptor(fullName: string, fields: seq<Field>)

  const RawDescriptor := Descriptor("RawFrame", [Field("can_id", UInt32), Field("payload", UInt32List)])
  const FallbackDescriptor := Descriptor("RawCanFrame", [Field("data", UInt32List)])
  const ScalarDescriptor := Descriptor("ScalarValue", [Field("value", Double)])

  datatype Frame = Frame(iface: string, id: nat, payload: seq<bv8>, time: nat)

  /** One call of the logger: a frame, its DBC type and serialised signals if it has one, and an update ratio. */
  datatype Entry = Entry(frame: Frame, descriptor: Option<Descriptor>, serialized: seq<bv8>, ratio: Option<int>)

  datatype Body =
    | Signals(bytes: seq<bv8>)
    | Fallback(payload: seq<bv8>)
    | RawFrame(canId: nat, payload: seq<bv8>)
    | Scalar(value: int)

  /** A message as the reader finds it: with the topic and the schema of its channel. */
  datatype Stored = Stored(topic: string, schema: Descriptor, time: nat, body: Body)

  /** The contents of a log file: the schema of each name, the schema of each topic, and the messages. */
  datatype File = File(schemas: map<string, Descriptor>, channels: map<string, Descriptor>, messages: seq<Stored>)

  const EmptyFile := File(map[], map[], [])

  // ----- Writing, as a function of the file -----

  function WithSchema(f: File, d: Descriptor): (r: File)
    ensures d.fullName in r.schemas
  {
    if d.fullName in f.schemas then f else f.(schemas := f.schemas[d.fullName := d])
  }

  function WithChannel(f: File, topic: string, schema: Descriptor): (r: File)
    ensures topic in r.channels
  {
    if topic in f.channels then f else f.(channels := f.channels[topic := schema])
  }

  function WithMessage(f: File, topic: string, d: Descriptor, time: nat, body: Body): File {
    var g := WithSchema(f, d);
    var h := WithChannel(g, topic, g.schemas[d.fullName]);
    h.(messages := h.messages + [Stored(topic, h.channels[topic], time, body)])
  }

  function NameOf(e: Entry): string {
    if e.descriptor.Some? then e.descriptor.value.fullName else PrintId(e.frame.id)
  }

  function TopicOf(e: Entry): string {
    BaseTopic(e.frame.iface, NameOf(e))
  }

  function DataLogged(f: File, e: Entry): File {
    if e.descriptor.Some?
    then WithMessage(f, TopicOf(e) + "/data", e.descriptor.value, e.frame.time, Signals(e.serialized))
    else WithMessage(f, TopicOf(e) + "/data", FallbackDescriptor, e.frame.time, Fallback(e.frame.payload))
  }

  function RawLogged(f: File, e: Entry): File {
    WithMessage(f, TopicOf(e) + "/raw", RawDescriptor, e.frame.time, RawFrame(e.frame.id, e.frame.payload))
  }

  function RatioLogged(f: File, e: Entry): File {
    if e.ratio.Some?
    then WithMessage(f, TopicOf(e) + "/update_ratio", ScalarDescriptor, e.frame.time, Scalar(e.ratio.value))
    else f
  }

  function Logged(f: File, e: Entry): File {
    RatioLogged(RawLogged(DataLogged(f, e), e), e)
  }

  function Recorded(entries: seq<Entry>): File {
    if entries == [] then EmptyFile else Logged(Recorded(entries[..|entries| - 1]), entries[|entries| - 1])
  }

  // ----- Writing, with numbered schemas and channels -----

  datatype Channel = Channel(topic: string, schemaId: nat)

  datatype Written = Written(channelId: nat, time: nat, body: Body)

  /** The caches by name, and what the writer holds: schemas and channels by number, and the messages. */
  datatype Tables = Tables(schemaIds: map<string, nat>, channelIds: map<string, nat>,
                           schemas: seq<Descriptor>, channels: seq<Channel>, written: seq<Written>)

  predicate Consistent(t: Tables) {
    && (forall n | n in t.schemaIds :: t.schemaIds[n] < |t.schemas|)
    && (forall n | n in t.channelIds :: t.channelIds[n] < |t.channels| && t.channels[t.channelIds[n]].topic == n)
    && (forall i | 0 <= i < |t.channels| :: t.channels[i].schemaId < |t.schemas|)
    && (forall i | 0 <= i < |t.written| :: t.written[i].channelId < |t.channels|)
  }

  function SchemaOf(t: Tables, channel: nat): Descriptor
    requires Consistent(t) && channel < |t.channels|
  {
    t.schemas[t.channels[channel].schemaId]
  }

  function Resolve(t: Tables, w: Written): Stored
    requires Consistent(t) && w.channelId < |t.channels|
  {
    Stored(t.channels[w.channelId].topic, SchemaOf(t, w.channelId), w.time, w.body)
  }

  /** The file that a reader of the tables sees. */
  function FileOf(t: Tables): File
    requires Consistent(t)
  {
    File(map n | n in t.schemaIds :: t.schemas[t.schemaIds[n]],
         map n | n in t.channelIds :: SchemaOf(t, t.channelIds[n]),
         seq(|t.written|, i requires 0 <= i < |t.written| => Resolve(t, t.written[i])))
  }

  lemma SameView(t: Tables, t': Tables)
    requires Consistent(t) && Consistent(t') && t'.written == t.written && |t.channels| <= |t'.channels|
    requires forall i: nat | i < |t.channels| :: t'.channels[i].topic == t.channels[i].topic && SchemaOf(t', i) == SchemaOf(t, i)
    ensures FileOf(t').messages == FileOf(t).messages
  {
  }

  /** A new numbered schema changes what is seen under its own name only. */
  lemma SchemaAdded(t: Tables, d: Descriptor)
    requires Consistent(t) && d.fullName !in t.schemaIds
    ensures var t' := t.(schemas := t.schemas + [d], schemaIds := t.schemaIds[d.fullName := |t.schemas|]);
            Consistent(t') && FileOf(t') == WithSchema(FileOf(t), d)
  {
    var t' := t.(schemas := t.schemas + [d], schemaIds := t.schemaIds[d.fullName := |t.schemas|]);
    assert forall i | 0 <= i < |t.schemas| :: t'.schemas[i] == t.schemas[i];
    assert Consistent(t');
    SameView(t, t');
    assert FileOf(t').schemas == FileOf(t).schemas[d.fullName := d];
    assert FileOf(t').channels == FileOf(t).channels;
  }

  lemma ChannelStaysConsistent(t: Tables, t': Tables, topic: string, schemaId: nat)
    requires Consistent(t) && topic !in t.channelIds && schemaId < |t.schemas|
    requires t' == t.(channels := t.channels + [Channel(topic, schemaId)], channelIds := t.channelIds[topic := |t.channels|])
    ensures Consistent(t')
    ensures forall i: nat | i < |t.channels| :: t'.channels[i] == t.channels[i] && SchemaOf(t', i) == SchemaOf(t, i)
    ensures SchemaOf(t', |t.channels|) == t.schemas[schemaId]
  {
  }

  lemma ChannelView(t: Tables, t': Tables, topic: string, schemaId: nat)
    requires Consistent(t) && Consistent(t') && topic !in t.channelIds && schemaId < |t.schemas| && |t.channels| < |t'.channels|
    requires t'.channelIds == t.channelIds[topic := |t.channels|]
    requires forall i: nat | i < |t.channels| :: SchemaOf(t', i) == SchemaOf(t, i)
    requires SchemaOf(t', |t.channels|) == t.schemas[schemaId]
    ensures FileOf(t').channels == FileOf(t).channels[topic := t.schemas[schemaId]]
  {
  }

  /** A new numbered channel changes what is seen under its own topic only. */
  lemma ChannelAdded(t: Tables, topic: string, schemaId: nat)
    requires Consistent(t) && topic !in t.channelIds && schemaId < |t.schemas|
    ensures var t' := t.(channels := t.channels + [Channel(topic, schemaId)], channelIds := t.channelIds[topic := |t.channels|]);
            Consistent(t') && FileOf(t') == WithChannel(FileOf(t), topic, t.schemas[schemaId])
  {
    var t' := t.(channels := t.channels + [Channel(topic, schemaId)], channelIds := t.channelIds[topic := |t.channels|]);
    ChannelStaysConsistent(t, t', topic, schemaId);
    SameView(t, t');
    ChannelView(t, t', topic, schemaId);
  }

  lemma MessageAdded(t: Tables, w: Written)
    requires Consistent(t) && w.channelId < |t.channels|
    ensures var t' := t.(written := t.written + [w]);
            Consistent(t') && FileOf(t') == FileOf(t).(messages := FileOf(t).messages + [Resolve(t, w)])
  {
    var t' := t.(written := t.written + [w]);
    assert FileOf(t').messages == FileOf(t).messages + [Resolve(t, w)];
  }

  class McapLogger {
    var schemaIds: map<string, nat>
    var channelIds: map<string, nat>
    var schemaTable: seq<Descriptor>
    var channelTable: seq<Channel>
    var written: seq<Written>

    function State(): Tables
      reads this
    {
      Tables(schemaIds, channelIds, schemaTable, channelTable, written)
    }

    predicate Valid()
      reads this
    {
      Consistent(State())
    }

    ghost function Contents(): File
      requires Valid()
      reads this
    {
      FileOf(State())
    }

    constructor ()
      ensures Valid() && Contents() == EmptyFile
    {
      schemaIds, channelIds, schemaTable, channelTable, written := map[], map[], [], [], [];
    }

    method GetOrRegisterSchema(d: Descriptor) returns (id: nat)
      requires Valid()
      modifies this
      ensures Valid() && Contents() == WithSchema(old(Contents()), d)
      ensures id < |schemaTable| && schemaTable[id] == Contents().schemas[d.fullName]
    {
      if d.fullName in schemaIds {
        return schemaIds[d.fullName];
      }
      SchemaAdded(State(), d);
      id := |schemaTable|;
      schemaTable := schemaTable + [d];
      schemaIds := schemaIds[d.fullName := id];
    }

    method GetOrRegisterChannel(topic: string, schemaId: nat) returns (id: nat)
      requires Valid() && schemaId < |schemaTable|
      modifies this
      ensures Valid() && Contents() == WithChannel(old(Contents()), topic, old(schemaTable)[schemaId])
      ensures id < |channelTable| && channelTable[id].topic == topic
      ensures schemaTable[channelTable[id].schemaId] == Contents().channels[topic]
    {
      if topic in channelIds {
        return channelIds[topic];
      }
      ChannelAdded(State(), topic, schemaId);
      id := |channelTable|;
      channelTable := channelTable + [Channel(topic, schemaId)];
      channelIds := channelIds[topic := id];
    }

    method Write(topic: string, d: Descriptor, time: nat, body: Body)
      requires Valid()
      modifies this
      ensures Valid() && Contents() == WithMessage(old(Contents()), topic, d, time, body)
    {
      var schemaId := GetOrRegisterSchema(d);
      var channelId := GetOrRegisterChannel(topic, schemaId);
      MessageAdded(State(), Written(channelId, time, body));
      written := written + [Written(channelId, time, body)];
    }

    method Log(e: Entry)
      requires Valid()
      modifies this
      ensures Valid() && Contents() == Logged(old(Contents()), e)
    {
      var baseTopic := if e.descriptor.Some? then e.frame.iface + "/" + e.descriptor.value.fullName
                       else e.frame.iface + "/" + PrintId(e.frame.id);
      assert baseTopic == TopicOf(e);
      var data := if e.descriptor.Some? then Signals(e.serialized) else Fallback(e.frame.payload);
      Write(baseTopic + "/data", if e.descriptor.Some? then e.descriptor.value else FallbackDescriptor, e.frame.time, data);
      Write(baseTopic + "/raw", RawDescriptor, e.frame.time, RawFrame(e.frame.id, e.frame.payload));
      if e.ratio.Some? {
        Write(baseTopic + "/update_ratio", ScalarDescriptor, e.frame.time, Scalar(e.ratio.value));
      }
    }
  }

  // ----- Replaying -----

  /** One call of the send function, and when it is due. */
  datatype Send = Send(iface: string, id: nat, payload: seq<bv8>, time: nat)

  function FieldNamed(fields: seq<Field>, name: string): Option<FieldType> {
    if fields == [] then None
    else if fields[0].name == name then Some(fields[0].ftype)
    else FieldNamed(fields[1..], name)
  }

  /** A raw message can be sent if its schema has the id and the payload field. */
  function ReadBack(m: Stored): Option<Send> {
    var c := ClassifyTopic(m.topic);
    if c.kind.Raw? && m.body.RawFrame? &&
       FieldNamed(m.schema.fields, "can_id") == Some(UInt32) && FieldNamed(m.schema.fields, "payload") == Some(UInt32List)
    then Some(Send(c.iface, m.body.canId, m.body.payload, m.time))
    else None
  }

  function Replay(messages: seq<Stored>): seq<Send> {
    Select(messages, ReadBack)
  }

  function TimeOf(m: Stored): int {
    m.time
  }

  function DueTime(s: Send): int {
    s.time
  }

  /** Headless playback: the messages in chronological order, ties in file order, raw ones handed to the sender. */
  method PlayHeadless(file: File) returns (sends: seq<Send>)
    ensures sends == Replay(SortBy(file.messages, TimeOf))
  {
    var messages := SortBy(file.messages, TimeOf);
    sends := [];
    for i := 0 to |messages|
      invariant sends == Replay(messages[..i])
    {
      var send := ReadRaw(messages[i]);
      SelectNext(messages, i, ReadBack);
      sends := sends + Selected(send);
    }
    assert messages[..|messages|] == messages;
  }

  method ReadRaw(view: Stored) returns (send: Option<Send>)
    ensures send == ReadBack(view)
  {
    var info := ClassifyTopic(view.topic);
    if !info.kind.Raw? || !view.body.RawFrame? {
      return None;
    }
    var idField := FieldNamed(view.schema.fields, "can_id");
    var payloadField := FieldNamed(view.schema.fields, "payload");
    if idField != Some(UInt32) || payloadField != Some(UInt32List) {
      return None;
    }
    return Some(Send(info.iface, view.body.canId, view.body.payload, view.time));
  }

  // ----- Recording and replaying -----

  /** A type built from a DBC has floating-point fields only. */
  predicate FromDbc(d: Descriptor) {
    forall i | 0 <= i < |d.fields| :: d.fields[i].ftype == Double
  }

  predicate ValidEntry(e: Entry) {
    e.descriptor.Some? ==> FromDbc(e.descriptor.value)
  }

  lemma {:induction false} DbcHasNoRawFields(fields: seq<Field>, name: string)
    requires forall i | 0 <= i < |fields| :: fields[i].ftype == Double
    ensures FieldNamed(fields, name) == None || FieldNamed(fields, name) == Some(Double)
  {
    if fields != [] {
      DbcHasNoRawFields(fields[1..], name);
    }
  }

  /** A DBC message of that name takes the place of the raw schema if it is logged before any other. */
  predicate Shadowed(entries: seq<Entry>) {
    entries != [] && entries[0].descriptor.Some? && entries[0].descriptor.value.fullName == RawDescriptor.fullName
  }

  function RawSchema(entries: seq<Entry>): Descriptor {
    if Shadowed(entries) then entries[0].descriptor.value else RawDescriptor
  }

  /** All raw channels, whenever they were first used, carry the one schema cached for raw frames. */
  ghost predicate RawCached(f: File, schema: Descriptor) {
    RawDescriptor.fullName in f.schemas && ReadyFor(f, schema)
  }

  /** The next raw message will find or register `schema`. */
  ghost predicate ReadyFor(f: File, schema: Descriptor) {
    && WithSchema(f, RawDescriptor).schemas[RawDescriptor.fullName] == schema
    && forall t | t in f.channels && ClassifyTopic(t).kind.Raw? :: f.channels[t] == schema
  }

  lemma EntryTopics(e: Entry)
    ensures ClassifyTopic(TopicOf(e) + "/update_ratio").kind == Other
    ensures ClassifyTopic(TopicOf(e) + "/data").kind == Data
    ensures ClassifyTopic(TopicOf(e) + "/raw").kind == Raw
  {
    RatioTopicIsOther(TopicOf(e));
    ClassifyReadsBack(e.frame.iface, NameOf(e), Data);
    ClassifyReadsBack(e.frame.iface, NameOf(e), Raw);
  }

  /** A message on a channel that is not raw replays as nothing and leaves a cached raw schema alone. */
  lemma OtherMessage(f: File, topic: string, d: Descriptor, time: nat, body: Body, schema: Descriptor)
    requires !ClassifyTopic(topic).kind.Raw?
    ensures RawCached(f, schema) ==> RawCached(WithMessage(f, topic, d, time, body), schema)
    ensures Replay(WithMessage(f, topic, d, time, body).messages) == Replay(f.messages)
  {
    ReplayOne(f, topic, d, time, body);
    assert ReadBack(WithMessage(f, topic, d, time, body).messages[|f.messages|]).None?;
  }

  lemma RawMessage(f: File, topic: string, time: nat, body: Body, schema: Descriptor)
    requires ClassifyTopic(topic).kind.Raw? && ReadyFor(f, schema)
    ensures var g := WithMessage(f, topic, RawDescriptor, time, body);
            && RawCached(g, schema)
            && Replay(g.messages) == Replay(f.messages) + Selected(ReadBack(Stored(topic, schema, time, body)))
  {
    ReplayOne(f, topic, RawDescriptor, time, body);
  }

  /** What a frame should be replayed as. */
  function Expected(e: Entry): Send {
    Send(e.frame.iface, e.frame.id, e.frame.payload, e.frame.time)
  }

  function ExpectedSends(entries: seq<Entry>): (r: seq<Send>)
    ensures |r| == |entries|
  {
    seq(|entries|, i requires 0 <= i < |entries| => Expected(entries[i]))
  }

  predicate SlashFree(entries: seq<Entry>) {
    forall i | 0 <= i < |entries| :: '/' !in entries[i].frame.iface
  }

  lemma ReplayOne(f: File, topic: string, d: Descriptor, time: nat, body: Body)
    ensures var g := WithMessage(f, topic, d, time, body);
            && |g.messages| == |f.messages| + 1
            && Replay(g.messages) == Replay(f.messages) + Selected(ReadBack(g.messages[|f.messages|]))
  {
    var g := WithMessage(f, topic, d, time, body);
    assert g.messages[..|f.messages|] == f.messages && g.messages[..|f.messages| + 1] == g.messages;
    SelectNext(g.messages, |f.messages|, ReadBack);
  }

  lemma RawReadsBack(e: Entry, schema: Descriptor)
    requires schema == RawDescriptor || FromDbc(schema)
    requires '/' !in e.frame.iface
    ensures var m := Stored(TopicOf(e) + "/raw", schema, e.frame.time, RawFrame(e.frame.id, e.frame.payload));
            ReadBack(m) == if schema == RawDescriptor then Some(Expected(e)) else None
  {
    ClassifyReadsBack(e.frame.iface, NameOf(e), Raw);
    if FromDbc(schema) {
      DbcHasNoRawFields(schema.fields, "can_id");
    }
  }

  lemma DataStep(f: File, e: Entry, schema: Descriptor)
    requires RawCached(f, schema) || (f == EmptyFile && schema == RawSchema([e]))
    ensures ReadyFor(DataLogged(f, e), schema) && Replay(DataLogged(f, e).messages) == Replay(f.messages)
  {
    EntryTopics(e);
    if e.descriptor.Some? {
      OtherMessage(f, TopicOf(e) + "/data", e.descriptor.value, e.frame.time, Signals(e.serialized), schema);
    } else {
      OtherMessage(f, TopicOf(e) + "/data", FallbackDescriptor, e.frame.time, Fallback(e.frame.payload), schema);
    }
  }

  /** Logging one frame adds exactly its own replay, if the cached raw schema is the genuine one. */
  lemma LoggedReplay(f: File, e: Entry, schema: Descriptor)
    requires '/' !in e.frame.iface && (schema == RawDescriptor || FromDbc(schema))
    requires RawCached(f, schema) || (f == EmptyFile && schema == RawSchema([e]))
    ensures RawCached(Logged(f, e), schema)
    ensures Replay(Logged(f, e).messages) ==
            if schema == RawDescriptor then Replay(f.messages) + [Expected(e)] else Replay(f.messages)
  {
    DataStep(f, e, schema);
    EntryTopics(e);
    RawReadsBack(e, schema);
    var g := DataLogged(f, e);
    RawMessage(g, TopicOf(e) + "/raw", e.frame.time, RawFrame(e.frame.id, e.frame.payload), schema);
    var h := RawLogged(g, e);
    if e.ratio.Some? {
      OtherMessage(h, TopicOf(e) + "/update_ratio", ScalarDescriptor, e.frame.time, Scalar(e.ratio.value), schema);
    }
  }

  predicate Loggable(entries: seq<Entry>) {
    SlashFree(entries) && forall i | 0 <= i < |entries| :: ValidEntry(entries[i])
  }

  lemma SchemaIsRawOrDbc(entries: seq<Entry>)
    requires Loggable(entries)
    ensures RawSchema(entries) == RawDescriptor || FromDbc(RawSchema(entries))
    ensures Shadowed(entries) <==> RawSchema(entries) != RawDescriptor
  {
    assert RawDescriptor.fields[0].ftype == UInt32;
    assert !FromDbc(RawDescriptor);
    if Shadowed(entries) {
      assert ValidEntry(entries[0]);
    }
  }

  /** What a file recorded so far replays as. */
  ghost predicate Replays(f: File, schema: Descriptor, sends: seq<Send>) {
    RawCached(f, schema) && Replay(f.messages) == (if schema == RawDescriptor then sends else [])
  }

  lemma LoggedReplays(f: File, e: Entry, schema: Descriptor, sends: seq<Send>)
    requires '/' !in e.frame.iface && (schema == RawDescriptor || FromDbc(schema))
    requires Replays(f, schema, sends) || (f == EmptyFile && sends == [] && schema == RawSchema([e]))
    ensures Replays(Logged(f, e), schema, sends + [Expected(e)])
  {
    LoggedReplay(f, e, schema);
  }

  lemma ExpectedStep(entries: seq<Entry>)
    requires entries != []
    ensures ExpectedSends(entries) == ExpectedSends(entries[..|entries| - 1]) + [Expected(entries[|entries| - 1])]
  {
  }

  lemma {:induction false} RecordedReplays(entries: seq<Entry>)
    requires entries != [] && Loggable(entries)
    ensures Replays(Recorded(entries), RawSchema(entries), ExpectedSends(entries))
  {
    var n := |entries| - 1;
    var before, e := entries[..n], entries[n];
    SchemaIsRawOrDbc(entries);
    ExpectedStep(entries);
    if n > 0 {
      RecordedReplays(before);
    } else {
      assert [e] == entries;
    }
    LoggedReplays(Recorded(before), e, RawSchema(entries), ExpectedSends(before));
  }

  lemma RecordedReplay(entries: seq<Entry>)
    requires entries != [] && Loggable(entries)
    ensures Replay(Recorded(entries).messages) == if Shadowed(entries) then [] else ExpectedSends(entries)
  {
    RecordedReplays(entries);
    SchemaIsRawOrDbc(entries);
  }

  lemma InReadOrder(entries: seq<Entry>)
    ensures Replay(SortBy(Recorded(entries).messages, TimeOf)) == SortBy(Replay(Recorded(entries).messages), DueTime)
  {
    assert KeepsKey(ReadBack, TimeOf, DueTime);
    SelectSorted(Recorded(entries).messages, ReadBack, TimeOf, DueTime);
  }

  lemma SortedNonEmpty(s: seq<Send>)
    requires s != []
    ensures SortBy(s, DueTime) != []
  {
    SortElements(s, DueTime);
    assert s[0] in multiset(s);
  }

  /**
    Recording frames on slash-free interfaces and replaying headless sends
    every frame with its interface, id and payload, in the order of the
    timestamps and of the recording on ties, if and only if the first frame
    logged was not of a DBC message called RawFrame; then nothing is sent.
   */
  lemma {:induction false} RecordThenReplay(entries: seq<Entry>)
    requires entries != [] && Loggable(entries)
    ensures var sends := Replay(SortBy(Recorded(entries).messages, TimeOf));
            && (sends == SortBy(ExpectedSends(entries), DueTime) <==> !Shadowed(entries))
            && (Shadowed(entries) ==> sends == [])
  {
    RecordedReplay(entries);
    InReadOrder(entries);
    SortedNonEmpty(ExpectedSends(entries));
  }

  /** One frame of a DBC message called RawFrame is recorded, and nothing of it is sent again. */
  lemma RawFrameMessageIsLost()
    ensures var d := Descriptor("RawFrame", [Field("Speed", Double)]);
            var entries := [Entry(Frame("vcan0", 1, [7], 0), Some(d), [], None)];
            Loggable(entries) && Replay(SortBy(Recorded(entries).messages, TimeOf)) == [] && ExpectedSends(entries) != []
  {
    var d := Descriptor("RawFrame", [Field("Speed", Double)]);
    var entries := [Entry(Frame("vcan0", 1, [7], 0), Some(d), [], None)];
    assert Loggable(entries) && Shadowed(entries);
    RecordThenReplay(entries);
  }

  predicate Chronological(entries: seq<Entry>) {
    forall i, j | 0 <= i < j < |entries| :: entries[i].frame.time <= entries[j].frame.time
  }

  lemma ExpectedInOrder(entries: seq<Entry>)
    requires Chronological(entries)
    ensures SortBy(ExpectedSends(entries), DueTime) == ExpectedSends(entries)
  {
    var expected := ExpectedSends(entries);
    forall i, j | 0 <= i < j < |expected| ensures DueTime(expected[i]) <= DueTime(expected[j]) {
      assert entries[i].frame.time <= entries[j].frame.time;
    }
    SortSorted(expected, DueTime);
  }

  /** With nondecreasing timestamps the replay is exactly the recorded sequence. */
  lemma ChronologicalReplay(entries: seq<Entry>)
    requires entries != [] && Loggable(entries) && Chronological(entries)
    ensures Replay(SortBy(Recorded(entries).messages, TimeOf)) == ExpectedSends(entries) <==> !Shadowed(entries)
  {
    ExpectedInOrder(entries);
    RecordThenReplay(entries);
  }

  /** What should be sent: every frame with its interface, id, payload and time. */
  lemma ExpectedMeans(entries: seq<Entry>)
    ensures |ExpectedSends(entries)| == |entries|
    ensures forall i | 0 <= i < |entries| ::
              var x, f := ExpectedSends(entries)[i], entries[i].frame;
              x.iface == f.iface && x.id == f.id && x.payload == f.payload && x.time == f.time
  {
  }

  // ----- All that is recorded -----

  /** The name of the message in the topics: that of its DBC type, or its printed id. */
  predicate NamedAs(e: Entry, name: string) {
    if e.descriptor.Some? then name == e.descriptor.value.fullName else name == PrintId(e.frame.id)
  }

  /**
    Logging one frame appends a data message with the signals or the plain
    payload, a raw message with the id and the payload, and with a ratio a
    third one, all at the time of the frame and under its interface and name.
   */
  lemma LoggedMessages(f: File, e: Entry)
    ensures var g, n, base := Logged(f, e), |f.messages|, e.frame.iface + "/" + NameOf(e);
            && NamedAs(e, NameOf(e))
            && |g.messages| == n + (if e.ratio.Some? then 3 else 2) && g.messages[..n] == f.messages
            && (forall i | n <= i < |g.messages| :: g.messages[i].time == e.frame.time)
            && g.messages[n].topic == base + "/data"
            && g.messages[n].body == (if e.descriptor.Some? then Signals(e.serialized) else Fallback(e.frame.payload))
            && g.messages[n + 1].topic == base + "/raw" && g.messages[n + 1].body == RawFrame(e.frame.id, e.frame.payload)
            && (e.ratio.Some? ==>
                  g.messages[n + 2].topic == base + "/update_ratio" && g.messages[n + 2].body == Scalar(e.ratio.value))
  {
    var d := DataLogged(f, e);
    var r := RawLogged(d, e);
    assert d.messages[..|f.messages|] == f.messages && r.messages[..|d.messages|] == d.messages;
    assert Logged(f, e).messages[..|r.messages|] == r.messages;
  }

  /** A message gets the type first used on its topic, or else the type first registered under its name, or else its own. */
  lemma MessageType(f: File, topic: string, d: Descriptor, time: nat, body: Body)
    ensures var m := WithMessage(f, topic, d, time, body).messages[|f.messages|];
            m.schema == if topic in f.channels then f.channels[topic]
                        else if d.fullName in f.schemas then f.schemas[d.fullName] else d
  {
  }

  /** A data message as playback hands it to the frame sink. */
  datatype Shown = Shown(iface: string, name: string, time: nat, body: Body)

  function ReadData(m: Stored): Option<Shown> {
    var c := ClassifyTopic(m.topic);
    if c.kind.Data? then Some(Shown(c.iface, c.name, m.time, m.body)) else None
  }

  function ExpectedShown(e: Entry): Shown {
    Shown(e.frame.iface, NameOf(e), e.frame.time, if e.descriptor.Some? then Signals(e.serialized) else Fallback(e.frame.payload))
  }

  lemma DataOne(f: File, topic: string, d: Descriptor, time: nat, body: Body)
    ensures var g := WithMessage(f, topic, d, time, body);
            Select(g.messages, ReadData) ==
              Select(f.messages, ReadData) + Selected(ReadData(Stored(topic, d, time, body)))
  {
    var g := WithMessage(f, topic, d, time, body);
    assert g.messages[..|f.messages|] == f.messages && g.messages[..|f.messages| + 1] == g.messages;
    SelectNext(g.messages, |f.messages|, ReadData);
  }

  lemma DataTopics(e: Entry, d: Descriptor, body: Body)
    requires '/' !in e.frame.iface
    ensures ReadData(Stored(TopicOf(e) + "/data", d, e.frame.time, body)) ==
            Some(Shown(e.frame.iface, NameOf(e), e.frame.time, body))
    ensures ReadData(Stored(TopicOf(e) + "/raw", d, e.frame.time, body)) == None
    ensures ReadData(Stored(TopicOf(e) + "/update_ratio", d, e.frame.time, body)) == None
  {
    EntryTopics(e);
    ClassifyReadsBack(e.frame.iface, NameOf(e), Data);
  }

  lemma DataLoggedShown(f: File, e: Entry)
    requires '/' !in e.frame.iface
    ensures Select(DataLogged(f, e).messages, ReadData) == Select(f.messages, ReadData) + [ExpectedShown(e)]
  {
    var d := if e.descriptor.Some? then e.descriptor.value else FallbackDescriptor;
    var body := if e.descriptor.Some? then Signals(e.serialized) else Fallback(e.frame.payload);
    DataOne(f, TopicOf(e) + "/data", d, e.frame.time, body);
    DataTopics(e, d, body);
  }

  lemma LoggedData(f: File, e: Entry)
    requires '/' !in e.frame.iface
    ensures Select(Logged(f, e).messages, ReadData) == Select(f.messages, ReadData) + [ExpectedShown(e)]
  {
    var g := DataLogged(f, e);
    var raw := RawFrame(e.frame.id, e.frame.payload);
    DataLoggedShown(f, e);
    DataOne(g, TopicOf(e) + "/raw", RawDescriptor, e.frame.time, raw);
    DataTopics(e, RawDescriptor, raw);
    if e.ratio.Some? {
      DataOne(RawLogged(g, e), TopicOf(e) + "/update_ratio", ScalarDescriptor, e.frame.time, Scalar(e.ratio.value));
      DataTopics(e, ScalarDescriptor, Scalar(e.ratio.value));
    }
  }

  function ExpectedShows(entries: seq<Entry>): (r: seq<Shown>)
    ensures |r| == |entries|
  {
    seq(|entries|, i requires 0 <= i < |entries| => ExpectedShown(entries[i]))
  }

  lemma ExpectedShowsStep(entries: seq<Entry>)
    requires entries != []
    ensures ExpectedShows(entries) == ExpectedShows(entries[..|entries| - 1]) + [ExpectedShown(entries[|entries| - 1])]
  {
  }

  /** Playing back the data messages of a recording shows every frame, in order, with its interface, name, time and signals. */
  lemma {:induction false} RecordThenShow(entries: seq<Entry>)
    requires SlashFree(entries)
    ensures Select(Recorded(entries).messages, ReadData) == ExpectedShows(entries)
    ensures forall i | 0 <= i < |entries| ::
              var x, e := ExpectedShows(entries)[i], entries[i];
              && x.iface == e.frame.iface && NamedAs(e, x.name) && x.time == e.frame.time
              && x.body == (if e.descriptor.Some? then Signals(e.serialized) else Fallback(e.frame.payload))
  {
    if entries != [] {
      RecordThenShow(entries[..|entries| - 1]);
      LoggedData(Recorded(entries[..|entries| - 1]), entries[|entries| - 1]);
      ExpectedShowsStep(entries);
    }
  }
}
