# caneo in Dafny

caneo receives, decodes, shows, records, replays and sends CAN frames. This
project models the parts of it that keep state and proves what they promise in
every run:

- **Signal codec** (`Bits`, `Codec`, `Sending`, `Decoding`, `Presets`): packing
  signals of either byte order into a payload bit by bit, decoding them again
  with the re-interpretation of negative values that contradict the declared
  range, and overwriting one signal in a captured payload.
- **Frame streaming** (`StreamService`, `Streaming`, `StreamingProperties`,
  `StreamingProgress`, `GrpcClient`, `RemoteFeed`): subscribers, queues, two
  levels of mutexes and shutdown on one side; connect, read, reconnect and stop
  on the other; and both together.
- **Playback** (`PlaybackControl`, `Playback`): the pacing loop against pauses,
  message filters and stop.
- **Actions** (`Scheduling`, `ActionEffects`, `ActionObjects`, `ActionHandling`,
  `ActionRuns`, `ActionLog`, `ActionProperties`, `ActionRemoval`, `ActionExact`):
  timers, pause and resume, removal, the first-in-first-out queue of commands and
  timer completions, and the published snapshot.
- **Recording and live stores** (`Topics`, `McapLog`, `LogSessions`,
  `TraceStore`, `Graphs`).
- **Terminal interface** (`TuiEvents`, `TuiWindow`, `TuiProperties`,
  `TuiScenarios`, `TuiModels`): the event handler with its modes, cursors and
  action wizard, and what its commands write into the send models.

Objects whose methods update fields are classes; each method is proved against
a function of the old state, and the properties are proved about these
functions over whole histories. Code shared between threads is a state machine
whose steps are single critical sections or single accesses of an atomic, in
any order; a run is any list of enabled steps.

`Sorting` is the reference for the library sorts. Physical values are `real`.
Bit layout, two's complement and truncation towards zero in the conversion of
physical to raw values are the behaviour assumed of the DBC library. A raw
value is required to be in range where it has to survive encoding.

## Where the code does not do what one might expect

- A signed signal with a declared range `[0|0]` gets the range `[0, 2^n]`
  before the test for contradicting values, so its negative values are shown
  `2^n` steps too high (`Decoding.ZeroRangeRoundTrip`,
  `Decoding.NegativeTargetIsLost`, `Codec.DecodedValueExact`).
- `shutdown` sets `done` without the subscriber's mutex, so its notification can
  fall between the handler's test and its blocking
  (`StreamingProperties.SleepsOverTruePredicate`, `ShutdownCanBeMissed`).
- The event loop cannot take back a timer completion that is already queued, so
  an action paused at that moment still sends and keeps its timer running
  (`ActionProperties.PausedSendsIffLate`, `PausedActionCanSend`). `atomic`
  in these modules says whether cancelling reaches a queued completion; the
  program's loop is `atomic == false`.
- For the same reason a removed action still fires, on the destroyed object,
  once for each of its completions that was queued when it was removed
  (`ActionRemoval.RemovedFiresIffQueued`, `ActionProperties.RemovedActionCanFire`).
- A single action that fires is erased, but fires again once for each completion
  of it that is queued behind the one being run, and never again if and only if
  there is none (`ActionExact.SingleFiresLeft`). The run in which it does
  (`ActionProperties.SingleCanFireTwice`) pauses and resumes it while its completion
  is queued, and lets the new wait expire before that is run. In a loop that runs
  what its timers queued before it looks at them again every single action fires
  once (`ActionExact.PromptSinglesFireOnce`).
- A sine action that fires while it is paused counts the time since it was last
  resumed once more (`ActionProperties.SineClockExact`, `LateSineReadsWrongClock`).
- Later sends of an action with a positive period are a period away from the present
  one in every continuation if and only if the completion being run is its only one
  in the queue (`ActionExact.SpacingExact`). Otherwise it can send twice at once, as in
  a run where it is paused and resumed and the loop then stalls until the new wait is
  over (`ActionProperties.StalledLoopCrowdsSends`). A loop that runs what its timers
  queued before it looks at them again never leaves a second completion
  (`ActionProperties.PromptLoopLeavesNone`).
- If the first frame logged belongs to a DBC message called `RawFrame`, its
  schema takes the place of the schema for raw frames, and nothing of the
  recording can be sent again (`McapLog.RecordThenReplay`, `RawFrameMessageIsLost`).
- `LogController::start` sets the path before it opens the file, so after a
  failed start the path is not empty although nothing is logged, against the
  comment at src/logger/LogController.hpp:33 (`LogSessions.PathWhileIdle`,
  `FailedStartLeavesPath`).
- The wizard is opened with the cursor behind the last signal, so a sine action
  made in the terminal always drives the last signal of its message
  (`TuiProperties.ReachableIsSound`). Its encoder, unlike that of the presets,
  does not clamp, and it leaves its values in the shared model for later actions
  to send (`TuiModels.PayloadsCarryLastWritten`).
- docs/architecture.md:401 gives topics as interface and message name; the code
  adds `/data`, `/raw` and `/update_ratio`, which is what is modelled.
  docs/architecture.md:411 reserves navigation level 2 for the Send tab; the
  code also uses it in the Actions and Playback tabs.

## Model

| member | source | states |
|---|---|---|
| Bits.GetSetBit | src/send/SendModel.cpp:67 | writing one payload bit changes that bit and no other |
| Bits.SameBits | src/send/SendModel.cpp:46-70 | a buffer is determined by its bits |
| Bits.ByteBitMeans | src/send/SendModel.cpp:67 | bit k of a byte is its lowest bit after shifting right by k |
| Bits.BitOfRaw | src/send/SendModel.cpp:67 | bit k of a raw value is its k-th binary digit in two's complement |
| Bits.UnsignedOfBits | src/decoder/DbcPppWrapper.cpp:46 | the bits of a raw value spell it modulo 2^n |
| Codec.SawtoothWalk | config/vcan0.dbc:216 | a big-endian signal starts at its top bit and walks down each byte, then jumps to the top of the next |
| Codec.LittleEndianWalk | src/send/SendModel.cpp:67 | a little-endian signal starts at its lowest bit and goes up |
| Codec.PosInjective | src/send/SendModel.cpp:67 | no two bits of a signal share a payload bit |
| Codec.EncodeRawBits | src/send/SendModel.cpp:67 | encoding a signal sets exactly its own bits and leaves all others |
| Codec.DecodeRawBits | src/decoder/DbcPppWrapper.cpp:46 | a payload that spells a raw value in range decodes to it, sign included, for every width up to 64 |
| Codec.DecodeRawFrame | src/decoder/DbcPppWrapper.cpp:46 | decoding reads only the signal's own bits |
| Codec.DecodedInRange | src/decoder/DbcPppWrapper.cpp:46 | whatever a payload holds, it decodes to a raw value in range |
| Codec.PhysToRawTowardsZero | src/send/SendModel.cpp:64 | converting to raw goes towards zero |
| Codec.QuantisationError | src/send/SendModel.cpp:64 | converting to raw and back errs by less than one step |
| Codec.MaskIsUnsigned | src/decoder/DbcPppWrapper.cpp:69-73 | the 64-bit word and mask give the unsigned reading of the signal's bits, width 64 included |
| Codec.DecodedValueExact | src/decoder/DbcPppWrapper.cpp:41-75 | a raw value is shown as its physical value, unless it is negative and that is below a minimum that is not, with a maximum above the minimum or both bounds zero; then as the value of raw + 2^n |
| Codec.FullTurn | src/decoder/DbcPppWrapper.cpp:69-74 | which is exactly 2^n times the factor higher, and never the same |
| Codec.PhysicalValue | src/decoder/DbcPppWrapper.cpp:62 | the physical value starts at the offset and grows by the factor with every raw step |
| Codec.ShownMaximum | src/decoder/DbcPppWrapper.cpp:41-44 | the shown maximum is the declared one, or 2^n where both bounds are zero |
| Sending.PayloadBit | src/send/SendModel.cpp:46-70 | each payload bit is the raw bit of the last signal written there, and 0 where no signal is |
| Sending.OrderIrrelevant | src/send/SendModel.cpp:34-36 | for disjoint signals any order of writing, so the start-bit sort too, gives the same payload |
| Sending.SortLeavesPayload | src/send/SendModel.cpp:34-36 | sorting the signals of a disjoint message by start bit leaves the payload of the DBC order |
| Sending.RawRoundTrip | src/send/SendModel.cpp:46-70 | a raw value in range survives encoding the whole message, if no later signal overlaps it |
| Sending.EncodeInto | src/send/SendModel.cpp:67 | writing the bits in place gives the specified buffer |
| Sending.SendModel.constructor | src/send/SendModel.cpp:18-39 | the messages built for the network, all of them and no others, in the order of their ids |
| Sending.BuiltMessage | src/send/SendModel.cpp:19-36 | a message has the id, name and size of its DBC message, and its signals the names, units and ranges of theirs, at 0, in the order of their start bits |
| Sending.SendModel.SetValue | src/send/SendModel.cpp:42-44 | one value changes, nothing else |
| Sending.SendModel.Encode | src/send/SendModel.cpp:46-70 | a fresh buffer with the message's payload |
| Sorting.SortElements | src/send/SendModel.cpp:34-39 | sorting keeps every element as often as before |
| Sorting.SortIsSorted | src/send/SendModel.cpp:34-39 | the result is ordered by the key |
| Decoding.DbcPppWrapper.constructor | src/decoder/DbcPppWrapper.cpp:19-21 | the first message of each id is found under it, and nothing else |
| Decoding.DbcPppWrapper.Decode | src/decoder/DbcPppWrapper.cpp:24-87 | unknown ids and short payloads leave the frame alone; otherwise its name is set and exactly the selected signals are appended, in order |
| Decoding.DecodedAreSelected | src/decoder/DbcPppWrapper.cpp:36-40 | the decoded signals are exactly the selected ones, in DBC order |
| Decoding.SelectedMeans | src/decoder/DbcPppWrapper.cpp:37-40 | a multiplexed signal is decoded if and only if there is a switch and it holds the signal's switch value; others always are |
| Decoding.SetSwitchSelects | src/decoder/DbcPppWrapper.cpp:37-40 | in an encoded message the switch value that was set decides |
| Decoding.DecodedMeans | src/decoder/DbcPppWrapper.cpp:41-85 | what any payload shows of a signal: name, unit, range, and the physical value of its raw value, re-read as unsigned in the one case |
| Decoding.SignalRoundTrip | src/decoder/DbcPppWrapper.cpp:36-86 | a signal that is not overwritten comes back quantised, up to the one exception |
| Decoding.MessageRoundTrip | src/decoder/DbcPppWrapper.cpp:36-86 | decoding an encoded message of disjoint signals returns every signal in DBC order with its value, with the exact exception |
| Decoding.BuiltMatches | src/send/SendModel.cpp:18-39 | a message as the constructor builds it holds exactly the signals of its DBC message, and still does after any value is set |
| Decoding.ProgramRoundTrip | src/send/SendModel.cpp:18-70 | so the round trip holds of the program's own messages, whatever values were set |
| Decoding.DeclaredRangeRoundTrip | src/decoder/DbcPppWrapper.cpp:68 | unsigned signals and those with a negative minimum always come back |
| Decoding.ZeroRangeRoundTrip | src/decoder/DbcPppWrapper.cpp:43-44 | a signal of range [0,0] comes back if and only if not both its raw and its physical value are negative; without offset and with a positive factor, if and only if it is not negative |
| Decoding.NegativeTargetIsLost | config/vcan0.dbc:142 | the steering target set to -1 is shown as 65535 |
| Decoding.ContradictingValueIsReread | src/decoder/DbcPppWrapper.cpp:63-67 | a raw -1 in 14 bits under a range of [0,16383] is shown as 16383 |
| Presets.FindSigIdx | src/action/ActionPreset.cpp:22-28 | the first signal of that name, or -1 |
| Presets.ApplySetsListed | src/action/ActionPreset.cpp:37-43 | the first signal of each listed name gets the last value listed, all others keep theirs |
| Presets.ApplySignalsAndEncode | src/action/ActionPreset.cpp:31-45 | the shared model holds the applied values and the result is its payload |
| Presets.ClampedIsNearest | src/action/ActionPreset.cpp:112-113 | clamping goes to the nearest value of a non-empty range and leaves the value alone otherwise |
| Presets.EncodeFn | src/action/ActionPreset.cpp:110-118 | a copy of the base payload with the nearest value of the range written over the signal |
| Presets.OverwrittenDecodes | src/action/ActionPreset.cpp:110-118 | the overwritten signal decodes to within one step of that value |
| Presets.OverwriteIsReencode | src/action/ActionPreset.cpp:102-118 | overwriting the captured payload equals setting the clamped value and encoding the message again, for any mix of byte orders |
| Presets.OverwriteKeepsOthers | src/action/ActionPreset.cpp:114-117 | all disjoint signals decode as before |
| StreamService.CanStreamService.Broadcast | src/grpc/CanStreamService.cpp:6-27 | every subscriber of all or of the frame's interface gets it queued, the others nothing |
| StreamService.CanStreamService.Shutdown | src/grpc/CanStreamService.cpp:29-35 | every subscriber is done, with its queue as before |
| StreamService.CanStreamService.Register | src/grpc/CanStreamService.cpp:40-46 | a fresh, empty subscriber is appended |
| StreamService.CanStreamService.Remove | src/grpc/CanStreamService.cpp:62-65 | exactly that subscriber leaves the list, the others keep their order |
| StreamService.CanStreamService.Drain | src/grpc/CanStreamService.cpp:52-59 | what was queued or arrived while a write ran unlocked is written in order, then at most one failed frame, then still queued; it ends with an empty queue or done |
| Streaming.StepKeeps | src/grpc/CanStreamService.cpp:18-65 | every step of any thread keeps locks, conservation of frames, the done bound and the wake-up condition |
| Streaming.RunKeeps | src/grpc/CanStreamService.cpp:18-65 | so they hold in every reachable state |
| StreamingProperties.MatchingIsOwed | src/grpc/CanStreamService.cpp:20-22 | the filter lets through exactly the broadcasts of the named interface, or all of them for an empty name |
| StreamingProperties.OwedMeans | src/grpc/CanStreamService.cpp:20-22 | what is owed comes from that interface alone and leaves nothing of it out |
| StreamingProperties.DeliveryConserved | src/grpc/CanStreamService.cpp:18-26 | what is owed since registration is what was written, then at most one frame in flight or failed, then the queue |
| StreamingProperties.WrittenIsPrefix | src/grpc/CanStreamService.cpp:52-59 | what was written is a prefix of what is owed |
| StreamingProperties.AtMostOneWriteAfterDone | src/grpc/CanStreamService.cpp:48-60 | after `done` at most one more frame is written, however the run goes on |
| StreamingProperties.NothingAfterRemoval | src/grpc/CanStreamService.cpp:62-65 | a removed subscriber receives and writes nothing more |
| StreamingProperties.SleepsOverTruePredicate | src/grpc/CanStreamService.cpp:29-35 | a blocked, unnotified handler sleeps over a true predicate if and only if a shutdown notified it between test and blocking; never because of a broadcast |
| StreamingProperties.ShutdownCanBeMissed | src/grpc/CanStreamService.cpp:32-33 | a run in which that happens |
| StreamingProperties.WaitsEnd | src/grpc/CanStreamService.cpp:18-27 | no deadlock: whoever waits for a mutex waits for someone who can act, or who waits for someone who can |
| StreamingProgress.ShutdownReachesAll | src/grpc/CanStreamService.cpp:29-35 | when a shutdown ends, every subscriber in the list is done |
| StreamingProgress.EverythingOwedIsWritten | src/grpc/CanStreamService.cpp:48-60 | with no broadcast or shutdown under way, the handler's own steps write everything that is owed |
| StreamingProgress.DoneHandlersLeave | src/grpc/CanStreamService.cpp:48-65 | and bring a handler that is done, unless it overslept, out of the list |
| GrpcClient.StepKeeps | src/socket/SocketGrpc.cpp:20-78 | every step of reader and owner keeps the context registered, alive and cancelled as required |
| GrpcClient.StopCancels | src/socket/SocketGrpc.cpp:71-78 | after stop's locked section no `Read` can block or begin to; the registered context is always alive; connected implies registered |
| GrpcClient.JoinTerminates | src/socket/SocketGrpc.cpp:77 | while stop waits every reader step brings the end nearer, and the join returns after at most seven |
| GrpcClient.ReaderComesBack | src/socket/SocketGrpc.cpp:27-67 | until it is stopped the reader always comes back to reading, connected under its registered context, in at most eight steps with a nap between attempts |
| RemoteFeed.FeedIsOrderedSelection | src/socket/SocketGrpc.cpp:26-67 | over any run with disconnects and reconnects the callback sees frames broadcast on its interface, with their ids, lengths modulo 256 and payloads, in order and each once; every connection starts with the first one after its registration and has no gaps |
| PlaybackControl.PlaybackController.constructor | src/playback/PlaybackController.hpp:16-19 | every interface is listed and paused |
| PlaybackControl.PlaybackController.IsRunning | src/playback/PlaybackController.hpp:21-26 | the first entry of that name decides, unknown ones do not run |
| PlaybackControl.PlaybackController.AnyRunning | src/playback/PlaybackController.hpp:28-32 | whether some entry runs |
| PlaybackControl.PlaybackController.Toggle | src/playback/PlaybackController.hpp:34-41 | the first entry of that name is switched, nothing else |
| PlaybackControl.PlaybackController.Stop | src/playback/PlaybackController.hpp:43-49 | only the stop flag changes |
| PlaybackControl.PlaybackController.SetMessages | src/playback/PlaybackController.hpp:80-86 | the interface lists exactly these messages, all enabled; other interfaces keep theirs |
| PlaybackControl.PlaybackController.ToggleMessage | src/playback/PlaybackController.hpp:90-104 | index 0 switches all by whether any is on, n the n-th, others nothing |
| PlaybackControl.PlaybackController.IsMessageEnabled | src/playback/PlaybackController.hpp:106-113 | a message passes unless it is listed and off |
| PlaybackControl.ToggleSwitchesOne | src/playback/PlaybackController.hpp:34-41 | a toggle switches that interface and no other, and a second one takes it back |
| PlaybackControl.ToggleAllTwice | src/playback/PlaybackController.hpp:96-98 | switching all twice leaves all on or all off, by the first state |
| PlaybackControl.PassesMeans | src/playback/PlaybackController.hpp:106-113 | a message is held back if and only if its interface lists it and the first entry is off |
| PlaybackControl.RunsMeans | src/playback/PlaybackController.hpp:21-26 | an interface runs if and only if it is listed and the first entry is on |
| PlaybackControl.ToggledAtMeans | src/playback/PlaybackController.hpp:90-104 | 0 switches all off if any is on and on otherwise, n the n-th alone, a number beyond the end nothing |
| Playback.StepKeeps | src/logger/McapReader.cpp:175-264 | every step of player, interface and clock keeps the pacing, the calibration across deliveries, the delivery and the wake-up conditions |
| Playback.PacedDelivery | src/logger/McapReader.cpp:184-202 | no message is delivered before its offset from its calibration, and any two deliveries share one calibration unless in between the player found all interfaces paused and waited; then the message it waited with sets the pace, no earlier than the end of the wait, so there is no catch-up burst |
| Playback.CalibratingIsDue | src/logger/McapReader.cpp:189-202 | the message that sets the pace is due at once: its wait can end without the clock moving, unless playback was stopped |
| Playback.DueExactly | src/logger/McapReader.cpp:194-202 | a sleeping player goes on exactly when its message's offset from the calibration is over |
| Playback.DeliversSelection | src/logger/McapReader.cpp:175-264 | what is delivered is an ordered selection of the readable messages, data messages to the frame sink and raw ones to the sender, each found running and passing the filter when it was asked about |
| Playback.OpenMessagesAreDelivered | src/logger/McapReader.cpp:205-263 | every readable data or raw message with its sink that was passed while its interface ran and its filter was on was delivered to that sink |
| Playback.AtMostOneAfterStop | src/playback/PlaybackController.hpp:43-57 | after stop at most one more message is delivered, however the run goes on |
| Playback.NeverSleepsOverTruth | src/playback/PlaybackController.hpp:34-71 | the player is never blocked over a true predicate without a notification on its way |
| Playback.UserStepsMean | src/playback/PlaybackController.hpp:34-49 | toggles, filters and the stop change what they name at once and the player only through its answers |
| Playback.StopEndsPlayback | src/playback/PlaybackController.hpp:43-57 | after a stop the player can always end without the clock moving |
| Playback.EndsOnlyAtEnd | src/logger/McapReader.cpp:175-202 | it ends only at the end of the recording or after a stop |
| Playback.PlaysToTheEnd | src/logger/McapReader.cpp:175-264 | while some interface runs, or without a controller, it only needs time to get through the recording |
| ActionObjects.Action.constructor | src/action/Action.cpp:6-20 | a new action is unpaused, never sent, without a wait, with its sine clock at zero |
| ActionObjects.Action.Schedule | src/action/Action.cpp:46-76 | the old wait is cancelled and one with the kind's delay is armed |
| ActionObjects.Action.Pause | src/action/Action.cpp:107-110 | the sine clock is banked, the flag set and the wait cancelled |
| ActionObjects.Action.Resume | src/action/Action.cpp:112-115 | the sine clock restarts and one wait is armed |
| ActionObjects.Action.ElapsedTime | src/action/Action.cpp:102-105 | the banked time and the time since the last resume or construction |
| ActionObjects.Action.OnExpiry | src/action/Action.cpp:117-126 | what is sent, encoded at the clock's reading if sine, the time it was sent, and the next wait unless the action is single |
| ActionEffects.ArmedWait | src/action/Action.cpp:46-76 | a scheduled action waits for its period or interval, a single one not at all |
| ActionEffects.ParamMeans | src/action/ActionHandler.cpp:60-72 | parameter 0 is the amplitude, 1 the period, 2 the offset of a sine; nothing else changes |
| ActionEffects.InfoMeans | src/action/ActionHandler.cpp:96-110 | what the snapshot shows of an action |
| ActionEffects.CommandMeans | src/action/ActionHandler.cpp:12-79 | what each command does to the list, in terms of the actions |
| ActionEffects.CompletionMeans | src/action/Action.cpp:40-76 | a completion marks the action sent, then takes it out if single and arms its next wait otherwise |
| ActionHandling.ActionHandler.RebuildSnapshot | src/action/ActionHandler.cpp:92-117 | the snapshot is the projection of the list, idx being the position |
| ActionHandling.ActionHandler.Add | src/action/ActionHandler.cpp:12-33 | the action is appended, started and, if asked, paused at once; the snapshot follows |
| ActionHandling.ActionHandler.Erase | src/action/ActionHandler.cpp:38-39 | the action leaves the list and is destroyed with its wait cancelled; completions already queued stay |
| ActionHandling.ActionHandler.Remove | src/action/ActionHandler.cpp:35-42 | the action at the index is erased, an index out of range changes nothing |
| ActionHandling.ActionHandler.TogglePause | src/action/ActionHandler.cpp:49-58 | that action is paused or resumed |
| ActionHandling.ActionHandler.UpdateSinParam | src/action/ActionHandler.cpp:60-72 | the parameter of a sine action changes, other kinds and indices are left alone |
| ActionHandling.ActionHandler.UpdatePayload | src/action/ActionHandler.cpp:74-79 | that payload is replaced; the snapshot still fits |
| ActionHandling.ActionHandler.OnTimer | src/action/ActionHandler.cpp:81-90 | sends once, publishes, then reschedules or erases the action |
| ActionHandling.ActionHandler.OnStrayTimer | src/action/Action.cpp:70-76 | a completion that outlived its action still sends |
| ActionRuns.IdentityStep | src/action/ActionHandler.cpp:12-58 | every step keeps the actions listed, destroyed and still queued apart, and creates only fresh ones |
| ActionRuns.ConstructedMeans | src/action/Action.cpp:6-20 | what a new action is |
| ActionRuns.CountStep | src/action/Action.cpp:46-76 | every step keeps each timer's count of completions equal to those in the queue |
| ActionRuns.ListStep | src/action/ActionHandler.cpp:12-117 | every step keeps each action's timer and clock condition, and the snapshot equal to the projection |
| ActionProperties.OneArmedWait | src/action/Action.cpp:46-76 | at most one armed wait per action, however cancelling behaves |
| ActionProperties.AtomicCancelSilences | src/action/Action.cpp:30-38 | with atomic cancelling a paused action has no wait and no queued completion, and any other exactly one |
| ActionProperties.PausedSendsIffLate | src/action/Action.cpp:30-33 | a paused action still sends if and only if a completion was queued when it was paused, which atomic cancelling excludes |
| ActionProperties.PausedActionCanSend | src/action/Action.cpp:70-76 | a run in which a paused action sends and keeps its timer running, the pause having been posted before the completion was queued |
| ActionExact.SpacingExact | src/action/Action.cpp:70-76 | whenever a periodic or sine action fires, every later send of it in every continuation is at least its period or interval later, across any pauses, if and only if the completion being run was its only one in the queue |
| ActionExact.DueActionSendsAtOnce | src/action/Action.cpp:46-76 | without atomic cancelling an action whose wait is over can send at once |
| ActionExact.QueuedFiresAtOnce | src/action/Action.cpp:70-76 | without atomic cancelling a queued completion can fire without any time passing |
| ActionExact.LeftIsQueued | src/action/Action.cpp:70-76 | right after a send exactly the other completions of the action are queued, with atomic cancelling none |
| ActionProperties.SendsAreSpaced | src/action/Action.cpp:70-76 | in any run two sends of an action are at least its period or interval apart whenever the earlier left no completion queued; with atomic cancelling always |
| ActionProperties.PromptLoopLeavesNone | src/action/Action.cpp:70-76 | in the program's loop none is left as long as no wait expires while a completion of that action is queued |
| ActionProperties.StalledLoopCrowdsSends | src/action/Action.cpp:70-76 | a run in which a periodic action sends twice at once; in it a wait expires while a completion of the action is queued, so the loop is not prompt |
| ActionExact.SingleFiresLeft | src/action/Action.cpp:48-54 | a single action that fires is gone and fires again exactly as often as completions of it were queued behind, in so far as they are run; never again if and only if there was none |
| ActionExact.PromptSinglesFireOnce | src/action/Action.cpp:48-54 | in a loop that runs what its timers queued before it looks at them again every single action that fires does so once, is gone, and has nothing queued |
| ActionProperties.SingleSendsOnce | src/action/Action.cpp:48-54 | a single action fires at most once from the list; any other firing is later, of the destroyed action, and not with atomic cancelling |
| ActionProperties.SingleCanFireTwice | src/action/Action.cpp:48-54 | a run in which a single action fires from the list and once more after it was destroyed; in it too a wait expires while a completion is queued |
| ActionProperties.SineClockExact | src/action/Action.cpp:102-126 | at each firing the sine clock reads the unpaused time since construction if and only if the action is not paused or was resumed just then; otherwise it is ahead by the time since |
| ActionProperties.SineClockIsUnpausedTime | src/action/Action.cpp:102-126 | with atomic cancelling it always reads the unpaused time, a paused start included |
| ActionProperties.LateSineReadsWrongClock | src/action/Action.cpp:102-110 | a run in which a paused sine action encodes with twice its unpaused time |
| ActionProperties.SnapshotIsProjection | src/action/ActionHandler.cpp:92-117 | between handlers the snapshot shows the list entry by entry: position, message, kind, state, times and parameters |
| ActionProperties.RemovedActionCanFire | src/action/ActionHandler.cpp:35-42 | a run in which a removed action fires after it was destroyed |
| ActionRemoval.GoneFiresWhatWasQueued | src/action/ActionHandler.cpp:35-42 | a destroyed action never comes back, and its firings and queued completions together stay what they were |
| ActionRemoval.RemovedFiresIffQueued | src/action/ActionHandler.cpp:35-42 | a removed action fires again exactly as often as completions of it were queued when it was removed, and not at all with atomic cancelling |
| ActionRemoval.QueueRunsOut | src/action/ActionHandler.cpp:35-42 | the loop can always run its queue to the end, so every such completion is run |
| ActionRemoval.GoneForever | src/action/ActionHandler.cpp:35-42 | with atomic cancelling a removed or finished action never comes back and never sends |
| ActionRemoval.IndexReachesIffUndisturbed | src/action/ActionHandler.cpp:35-58 | a command by snapshot index reaches the action seen if and only if none at or below it was removed in between |
| Topics.ClassifyReadsBack | src/logger/McapReader.cpp:39-55 | a topic is read back as its interface and name if and only if the interface has no slash; its kind always is |
| Topics.NamingReadsBack | src/logger/McapReader.cpp:39-55 | every classified topic is the one named from its parts |
| Topics.RatioTopicIsOther | src/logger/McapLogger.cpp:296-297 | ratio channels are never played back |
| Topics.PrintedIdReadsBack | src/logger/McapReader.cpp:59-70 | the id printed in a topic is read back, for every 32-bit id |
| Topics.PrintedIdShape | src/logger/McapLogger.cpp:250-252 | a printed id is 0x and at least three upper-case digits, more only without a leading zero |
| Topics.DerivedIdMeans | src/logger/McapReader.cpp:59-70 | derived ids have 32 bits, those of other names the 11 bits of their hash |
| McapLog.McapLogger.GetOrRegisterSchema | src/logger/McapLogger.cpp:47-73 | the first schema of a name is registered and found ever after |
| McapLog.McapLogger.GetOrRegisterChannel | src/logger/McapLogger.cpp:75-90 | likewise for the channel of a topic |
| McapLog.McapLogger.Log | src/logger/McapLogger.cpp:245-298 | a data message, a raw message and, with a ratio, a scalar are appended with the cached schemas |
| McapLog.LoggedMessages | src/logger/McapLogger.cpp:245-298 | which messages a frame adds: topics, times and contents |
| McapLog.MessageType | src/logger/McapLogger.cpp:47-90 | the type of a message: that of its topic, or that registered under its name, or its own |
| McapLog.PlayHeadless | src/logger/McapReader.cpp:175-264 | the raw messages in chronological order are sent |
| McapLog.ReadRaw | src/logger/McapReader.cpp:248-263 | a message is sent if its schema has the id and payload fields |
| McapLog.RecordThenReplay | src/logger/McapLogger.cpp:245-298 | replaying a recording sends every frame in timestamp order if and only if the first was not of a message called RawFrame; then nothing is sent |
| McapLog.RawFrameMessageIsLost | src/logger/McapLogger.cpp:52-55 | one recorded frame of a message called RawFrame, of which nothing is sent again |
| McapLog.ChronologicalReplay | src/logger/McapReader.cpp:248-263 | with nondecreasing timestamps the replay is exactly what was recorded, under the same condition |
| McapLog.ExpectedMeans | src/logger/McapReader.cpp:248-263 | what should be sent is every frame's interface, id, payload and time |
| McapLog.RecordThenShow | src/logger/McapReader.cpp:226-246 | the data messages of a recording show every frame in order, with interface, name, time and signals |
| LogSessions.LogController.Start | src/logger/LogController.cpp:7-13 | no effect while active; otherwise a session begins, or the path alone is set and the call throws |
| LogSessions.LogController.Stop | src/logger/LogController.cpp:15-21 | the file is closed and all session state cleared |
| LogSessions.LogController.LogCanFrame | src/logger/LogController.cpp:40-56 | the frame is written with the time since the last one of its key in this session |
| LogSessions.FrameLog.LogFrame | src/modes/log_frame.hpp:16-34 | the same on the caller's table |
| LogSessions.LogAll | src/modes/log_frame.hpp:16-34 | log_frame on a fresh table writes the specified entries |
| LogSessions.SessionsAreIndependent | src/logger/LogController.cpp:7-56 | after any starts, stops and frames each file holds what log_frame writes for its frames on a fresh table: no ratio spans two sessions |
| LogSessions.PathWhileIdle | src/logger/LogController.hpp:33 | while nothing is logged the path is that of the last failed start since the last stop |
| LogSessions.FailedStartLeavesPath | src/logger/LogController.cpp:10-11 | one failed start, after which a path is shown |
| LogSessions.PathWhileActive | src/logger/LogController.cpp:7-13 | while a log is open the path is that of the start that opened it |
| LogSessions.EntriesMean | src/modes/log_frame.hpp:26-33 | every frame is written in order, with a ratio if and only if there was one of its key before |
| LogSessions.RatioSinceLatest | src/modes/log_frame.hpp:28-31 | the ratio is the time since the latest of them |
| LogSessions.SessionRatios | src/logger/LogController.cpp:48-53 | a key with n frames gets n-1 ratios, each a neighbouring step, together last minus first |
| TraceStore.DataFrameSet.Update | src/frame/DataFrameSet.cpp:9-25 | the row and the delta of that id change as specified, all others stay |
| TraceStore.TraceAfterHistory | src/frame/DataFrameSet.cpp:9-43 | after any history each row has the latest header, payload and time and the most recent decoded signals; a delta exists if and only if two frames were seen |
| TraceStore.LastDecodedIsLatest | src/frame/DataFrameSet.cpp:13-21 | those signals are of the last frame that had any |
| Graphs.GraphWindow.Update | src/gui/GraphWindow.cpp:13-32 | every matching series of every tab gets the first matching signal's value |
| Graphs.GraphWindow.PushValue | src/gui/GraphWindow.cpp:34-53 | the first matching series of every tab gets the value |
| Graphs.GraphWindow.PushTo | src/gui/GraphWindow.hpp:50-57 | one sample is appended, the oldest dropped beyond 10000 |
| Graphs.GraphWindow.AddGraph | src/gui/GraphWindow.cpp:55-62 | an empty tab is appended, numbered if it has no name, and its index returned |
| Graphs.GraphWindow.AddSignal | src/gui/GraphWindow.cpp:64-85 | an empty series is appended unless the tab is missing or has the key |
| Graphs.GraphWindow.ChangeSeries | src/gui/GraphWindow.cpp:224-234 | one series is removed or moved to another axis |
| Graphs.FirstIsAll | src/gui/GraphWindow.cpp:43-51 | stopping at the first match loses nothing because keys are unique |
| Graphs.SampleMeans | src/gui/GraphWindow.cpp:19-51 | which keys a frame or a model output brings a sample, with which value and time |
| Graphs.StepMeans | src/gui/GraphWindow.cpp:13-85 | what each event changes, and that it changes nothing else |
| Graphs.UnnamedTab | src/gui/GraphWindow.cpp:58-59 | a tab without a name is called after its number |
| Graphs.NumeralMeans | src/gui/GraphWindow.cpp:59 | which is printed in decimal without leading zeros |
| Graphs.SeriesHoldLatestSamples | src/gui/GraphWindow.cpp:13-85 | after any history keys are unique per tab, and each series holds exactly the last 10000 samples since it was added |
| TuiWindow.TuiDataFrameSet.constructor | src/gui/TuiDataFrameSet.hpp:71-109 | the initial modes, cursors and buffers, which satisfy the invariant |
| TuiWindow.TuiDataFrameSet.CreateSingleAction | src/gui/TuiDataFrameSet.cpp:83-97 | a single action for the selected message, if there is one |
| TuiWindow.TuiDataFrameSet.CreatePeriodicAction | src/gui/TuiDataFrameSet.cpp:99-114 | a periodic action for the selected message |
| TuiWindow.TuiDataFrameSet.CreateSinAction | src/gui/TuiDataFrameSet.cpp:116-148 | a sine action for the clamped signal of the selected message, if it has signals |
| TuiWindow.TuiDataFrameSet.CommitActionEdit | src/gui/TuiDataFrameSet.cpp:183-222 | a sine parameter, or a model value and the new payload, for the selected action |
| TuiWindow.TuiDataFrameSet.HandleActionEdit | src/gui/TuiDataFrameSet.cpp:181-243 | the editing mode of the Actions tab |
| TuiWindow.TuiDataFrameSet.HandleWizard | src/gui/TuiDataFrameSet.cpp:246-350 | the wizard, step by step |
| TuiWindow.TuiDataFrameSet.HandleSendEdit | src/gui/TuiDataFrameSet.cpp:353-391 | the editing mode of the Send tab |
| TuiWindow.TuiDataFrameSet.HandleSearch | src/gui/TuiDataFrameSet.cpp:394-409 | the search mode |
| TuiWindow.TuiDataFrameSet.HandleShortcut | src/gui/TuiDataFrameSet.cpp:412-430 | quitting, jumping to a tab, opening the search |
| TuiWindow.TuiDataFrameSet.HandleSignals | src/gui/TuiDataFrameSet.cpp:433-498 | the signal list and its action buttons |
| TuiWindow.TuiDataFrameSet.HandleActionView | src/gui/TuiDataFrameSet.cpp:533-596 | the signal view of an action |
| TuiWindow.TuiDataFrameSet.HandleActionList | src/gui/TuiDataFrameSet.cpp:659-696 | the action list |
| TuiWindow.TuiDataFrameSet.HandleSubTabs | src/gui/TuiDataFrameSet.cpp:699-757 | the sub-tabs |
| TuiWindow.TuiDataFrameSet.CatchEvent | src/gui/TuiDataFrameSet.cpp:178-777 | the whole handler in its order of precedence, which keeps the invariant of the interface |
| TuiProperties.EventKeeps | src/gui/TuiDataFrameSet.cpp:178-777 | any event in any state satisfying the invariant keeps it, whatever the other threads hold at that moment |
| TuiProperties.ReachableIsSound | src/gui/TuiDataFrameSet.cpp:178-777 | in every reachable state at most one mode is active and only in its place, level 3 means the Send tab with a message and a cursor in range, level 2 one of three tabs, wizard steps past the first hold a positive interval; only positive-interval actions on existing messages were created, and sine actions only on the last signal |
| TuiProperties.CommandsOfOneEvent | src/gui/TuiDataFrameSet.cpp:178-777 | one event adds at most two commands, each naming the selected row of the list it read; in a mode the cursors stay and nothing is removed, paused, toggled or quit |
| TuiProperties.EscapeCancels | src/gui/TuiDataFrameSet.cpp:224-258 | escape leaves any mode without other effect, and quits only from none |
| TuiProperties.EveryMessageCanBeSelected | src/gui/TuiDataFrameSet.cpp:598-757 | from any reachable state without a mode, the given keys select any message of any interface and change nothing else |
| TuiProperties.TypedPeriodIsCreated | src/gui/TuiDataFrameSet.cpp:246-302 | typing an interval and confirming creates exactly that periodic action if and only if it is positive and fits 64 bits; otherwise the wizard stays at its first step |
| TuiScenarios.ActionsCanBeControlled | src/gui/TuiDataFrameSet.cpp:659-696 | the given keys pause, resume or remove any action and change nothing else |
| TuiScenarios.PlaybackCanBeControlled | src/gui/TuiDataFrameSet.cpp:501-529 | and switch any interface of a playback, or all or any one of its messages |
| TuiScenarios.SignalsCanBeSet | src/gui/TuiDataFrameSet.cpp:353-391 | and give any signal of the selected message any number that converts |
| TuiScenarios.SingleCanBeCreated | src/gui/TuiDataFrameSet.cpp:433-498 | the button and the key 1 create a single action |
| TuiScenarios.ActionsCanBeEdited | src/gui/TuiDataFrameSet.cpp:181-243 | any value of any action can be changed: a sine parameter directly, a signal in the model with the payload after it |
| TuiScenarios.SineCanBeCreated | src/gui/TuiDataFrameSet.cpp:246-350 | typing interval, amplitude, period and offset creates exactly that sine action, with the defaults for empty fields |
| TuiScenarios.EveryTabIsReached | src/gui/TuiDataFrameSet.cpp:760-777 | going right comes to every tab |
| TuiScenarios.EveryTraceIsReached | src/gui/TuiDataFrameSet.cpp:730-757 | and in the Trace tab to every trace |
| TuiScenarios.LeftUndoesRight | src/gui/TuiDataFrameSet.cpp:765-775 | left undoes right among the tabs |
| TuiScenarios.TraceCanBeScrolled | src/gui/TuiDataFrameSet.cpp:708-721 | every frame of the shown trace can be reached |
| TuiScenarios.SearchIsTyped | src/gui/TuiDataFrameSet.cpp:394-430 | the search keeps what is typed |
| TuiScenarios.AlwaysHome | src/gui/TuiDataFrameSet.cpp:433-777 | from every state without a mode, left and up lead back to the main tabs without issuing anything |
| TuiScenarios.LettersJump | src/gui/TuiDataFrameSet.cpp:412-430 | the letters jump to the tabs that exist, q quits |
| TuiScenarios.KeysAlike | src/gui/TuiDataFrameSet.cpp:181-696 | which keys do the same |
| TuiScenarios.WizardGoesBack | src/gui/TuiDataFrameSet.cpp:285-346 | up goes back one step of the wizard and keeps what was typed |
| TuiScenarios.FieldInput | src/gui/TuiDataFrameSet.cpp:304-318 | what a numeric field takes |
| TuiScenarios.UnhandledChangesNothing | src/gui/TuiDataFrameSet.cpp:178-777 | an event that is not handled changes nothing |
| TuiScenarios.DigitsAreRead | src/gui/TuiDataFrameSet.cpp:262-275 | the digits of a number are read as that number |
| TuiModels.SineEncode | src/gui/TuiDataFrameSet.cpp:132-136 | the value is written into the shared model, unclamped, and the result is the message's payload |
| TuiModels.ModelsHoldLastWritten | src/gui/TuiDataFrameSet.cpp:353-370 | after any history every signal holds the value last written to it, by an edit or by a sine action |
| TuiModels.WritesMean | src/gui/TuiDataFrameSet.cpp:132-136 | an edit, or a value encoded by a sine action, is in the model from then on; nothing else writes there |
| TuiModels.TakenMeans | src/gui/TuiDataFrameSet.cpp:83-148 | for what a payload is taken |
| TuiModels.PayloadsCarryLastWritten | src/gui/TuiDataFrameSet.cpp:83-148 | every payload taken for a new, updated or sine action exists; its bits are those of the raw values last written, 0 where no signal is, and signals in range decode to these values |

## Left out

- Float and double signals: their values are bit casts of IEEE 754 numbers; the codec covers integer signals.
- Rounding of double arithmetic in factors, offsets, clamping and times: `real` and `int` are exact.
- Conversion of a physical value outside the raw range: the library's behaviour there is not visible; round trips require raw values in range.
- Multiplexed signals in the message round trip: which of them are present depends on the switch value; decoding itself covers them.
- The position of equal start bits or equal ids after a sort: the sort of the program is unstable; the model keeps their order, which disjoint layouts cannot tell.
- Loading of DBC, YAML, Lua and configuration files, and reading of command-line flags: library parsing. A DBC is a list of messages.
- The order of entries of a preset's signal map: a list here.
- The value of the sine, and the name hash in derive_can_id: any value and any function.
- Protobuf and MCAP byte formats: message bodies are stored and read as values; reading is in log-time order, ties in file order. A DBC message called RawFrame whose signals are named `can_id` and `payload` has double fields of these names: the model sends nothing of such a recording, the program calls an integer getter on a double field, which aborts. Type names have no package.
- Playback of data messages as frames (zero length, signals by field): only which messages are delivered and when; the sent frames are in McapLog.
- McapReader's scans for interfaces and messages, log_scalar, elapsed time of a log: they would add only easy members.
- Concurrent code as objects: the interleavings of the streaming service, the receiving socket, the playback loop and the event loop are state machines on values, because several threads or queued handlers act on the same objects; the objects' updates in place and the C++ memory model below sequential consistency are not captured.
- What a completion does to a destroyed action beyond sending once: using the dead object is undefined in C++; its rescheduling is not modelled, and its values are read as they last were.
- Aliasing of actions: the handler's list holds them as values, so two references to one action cannot exist; the action as an object is in ActionObjects.
- The connection itself: creating a channel and calling Subscribe are taken to return; a cancelled `Read` returns false; the callback sees posted frames in the order of posting; a new start after stop waits for the join.
- More than one broadcasting thread: one thread broadcasts and one shuts down at a time; the timestamp of a frame is part of it.
- CanStreamService's other calls (send, log control): plain forwarding.
- Graph labels and declared ranges; samples arrive with their times.
- SocketCAN, interface set-up, services, notifications of the screen, all drawing in the terminal and the window.
- Values in the terminal interface: the text put into an edit buffer is an input, and `stod` any function. The handler's commands carry no values or payloads; TuiModels gives them. Digits beyond 64 bits and cursors of `int` range are unbounded.
- ActionHandling.ActionHandler.OnStrayTimer: does not reschedule, because what that does to a destroyed object is undefined.
- TuiWindow.TuiDataFrameSet.CreateSingleAction: the command names the message; its payload is in TuiModels.PayloadsCarryLastWritten.
- TuiWindow.TuiDataFrameSet.CreatePeriodicAction: likewise.
- TuiWindow.TuiDataFrameSet.CreateSinAction: the command names the signal; its encoder is TuiModels.SineEncode.
