/**
  The receiving socket: a reader thread that connects, reads and reconnects, and
  the owner thread that starts and stops it. `Read` may return a frame or end
  at any time; only a `Read` whose context was not cancelled may block.
 */
module GrpcClient {
  import opened Basics

  /** Where the reader thread is; the argument is its current client context. */
  datatype Reader =
    | Absent              // no thread
    | OuterTest           // reading `running_` in the outer loop
    | Created(ctx: nat)   // context made, not registered
    | Opening(ctx: nat)   // registered, subscribing
    | InnerTest(ctx: nat) // reading `running_` in the inner loop
    | Reading(ctx: nat)   // in `Read`
    | Closing(ctx: nat)   // left the inner loop, still marked connected
    | Leaving(ctx: nat)   // marked disconnected, still registered
    | NapTest(ctx: nat)   // unregistered, reading `running_`
    | Napping(ctx: nat)   // sleeping before the next attempt
    | Finished            // thread function returned

  datatype Owner = Free | Cancelling | Joining

  datatype Client = Client(running: bool, connected: bool, current: Option<nat>, alive: set<nat>,
                           cancelled: set<nat>, next: nat, reader: Reader, owner: Owner)

  datatype Action =
    | Start           // start(): set running_, spawn the reader
    | ClearRunning    // stop(): running_ = false
    | CancelCurrent   // stop(): the locked section
    | Join            // stop(): the reader was joined, or there was none
    | Advance         // any step of the reader outside `Read`
    | ReadFrame       // `Read` returns a frame
    | ReadEnd         // `Read` returns false

  const Initial := Client(false, false, None, {}, {}, 0, Absent, Free)

  predicate Enabled(c: Client, a: Action) {
    match a
    case Start => c.owner.Free? && c.reader.Absent?
    case ClearRunning => c.owner.Free?
    case CancelCurrent => c.owner.Cancelling?
    case Join => c.owner.Joining? && (c.reader.Absent? || c.reader.Finished?)
    case Advance => !c.reader.Absent? && !c.reader.Finished? && !c.reader.Reading?
    case ReadFrame => c.reader.Reading?
    case ReadEnd => c.reader.Reading?
  }

  function ReaderStep(c: Client): Client {
    match c.reader
    case OuterTest =>
      if c.running then c.(reader := Created(c.next), alive := c.alive + {c.next}, next := c.next + 1)
      else c.(reader := Finished)
    case Created(x) => c.(current := Some(x), reader := Opening(x))
    case Opening(x) => c.(connected := true, reader := InnerTest(x))
    case InnerTest(x) => c.(reader := if c.running then Reading(x) else Closing(x))
    case Closing(x) => c.(connected := false, reader := Leaving(x))
    case Leaving(x) => c.(current := None, reader := NapTest(x))
    case NapTest(x) =>
      if c.running then c.(reader := Napping(x)) else c.(reader := OuterTest, alive := c.alive - {x})
    case Napping(x) => c.(reader := OuterTest, alive := c.alive - {x})
    case _ => c
  }

  function Do(c: Client, a: Action): Client
    requires Enabled(c, a)
  {
    match a
    case Start => c.(running := true, reader := OuterTest)
    case ClearRunning => c.(running := false, owner := Cancelling)
    case CancelCurrent =>
      c.(cancelled := if c.current.Some? then c.cancelled + {c.current.value} else c.cancelled, owner := Joining)
    case Join => c.(reader := Absent, owner := Free)
    case Advance => ReaderStep(c)
    case ReadFrame => c.(reader := InnerTest(c.reader.ctx))
    case ReadEnd => c.(reader := Closing(c.reader.ctx))
  }

  function Exec(run: seq<Action>): Option<Client> {
    if run == [] then Some(Initial)
    else
      var before := Exec(run[..|run| - 1]);
      if before.Some? && Enabled(before.value, run[|run| - 1]) then Some(Do(before.value, run[|run| - 1])) else None
  }

  predicate HasContext(r: Reader) {
    !r.Absent? && !r.OuterTest? && !r.Finished?
  }

  predicate InSession(r: Reader) {
    r.Opening? || r.InnerTest? || r.Reading? || r.Closing? || r.Leaving?
  }

  predicate Inv(c: Client) {
    && c.alive == (if HasContext(c.reader) then {c.reader.ctx} else {})
    && c.current == (if InSession(c.reader) then Some(c.reader.ctx) else None)
    && (c.connected <==> c.reader.InnerTest? || c.reader.Reading? || c.reader.Closing?)
    && (!c.owner.Free? ==> !c.running)
    && (c.running ==> !c.reader.Absent? && !c.reader.Finished?)
    && (c.owner.Joining? && c.reader.Reading? ==> c.reader.ctx in c.cancelled)
  }

  lemma StepKeeps(c: Client, a: Action)
    requires Inv(c) && Enabled(c, a)
    ensures Inv(Do(c, a))
  {
  }

  lemma {:induction false} RunKeeps(run: seq<Action>)
    requires Exec(run).Some?
    ensures Inv(Exec(run).value)
  {
    if run != [] {
      RunKeeps(run[..|run| - 1]);
      StepKeeps(Exec(run[..|run| - 1]).value, run[|run| - 1]);
    }
  }

  /** The reader is inside a `Read` that nothing obliges to return. */
  predicate MayBlock(c: Client) {
    c.reader.Reading? && c.reader.ctx !in c.cancelled
  }

  /**
    After the locked section of stop(), in every interleaving, no `Read` can
    block: one under way has been cancelled, and no uncancelled one begins.
    At all times the registered context is alive, and a connection that shows
    as connected has its context registered.
   */
  lemma StopCancels(run: seq<Action>)
    requires Exec(run).Some?
    ensures var c := Exec(run).value;
            && (c.owner.Joining? ==> !MayBlock(c))
            && (c.current.Some? ==> c.current.value in c.alive)
            && (c.connected ==> c.current.Some? && HasContext(c.reader) && c.current.value == c.reader.ctx)
    ensures forall a | Enabled(Exec(run).value, a) && Exec(run).value.owner.Joining? :: !MayBlock(Do(Exec(run).value, a))
  {
    RunKeeps(run);
    var c := Exec(run).value;
    forall a | Enabled(c, a) && c.owner.Joining? ensures !MayBlock(Do(c, a)) {
      StepKeeps(c, a);
    }
  }

  /** How many steps the reader still takes once `running_` is false. */
  function StepsLeft(r: Reader): nat {
    match r
    case Absent => 0
    case Finished => 0
    case OuterTest => 1
    case NapTest(_) => 2
    case Napping(_) => 2
    case Leaving(_) => 3
    case Closing(_) => 4
    case InnerTest(_) => 5
    case Reading(_) => 6
    case Opening(_) => 6
    case Created(_) => 7
  }

  predicate ByReader(a: Action) {
    a.Advance? || a.ReadFrame? || a.ReadEnd?
  }

  /**
    While stop() waits in join, every step of the reader brings it nearer its
    end, a step is always possible until then, and nothing else happens; so the
    join returns after at most seven reader steps.
   */
  lemma JoinTerminates(run: seq<Action>)
    requires Exec(run).Some? && Exec(run).value.owner.Joining?
    ensures var c := Exec(run).value;
            && StepsLeft(c.reader) <= 7
            && (StepsLeft(c.reader) == 0 ==> Enabled(c, Join))
            && (StepsLeft(c.reader) > 0 ==> Enabled(c, Advance) || Enabled(c, ReadEnd))
            && (forall a | Enabled(c, a) && ByReader(a) ::
                  Do(c, a).owner.Joining? && StepsLeft(Do(c, a).reader) < StepsLeft(c.reader))
            && (forall a | Enabled(c, a) && !ByReader(a) :: a.Join? && StepsLeft(c.reader) == 0)
  {
    RunKeeps(run);
  }

  /** How many steps a running reader is away from its next `Read`. */
  function StepsToRead(r: Reader): nat {
    match r
    case Reading(_) => 0
    case InnerTest(_) => 1
    case Opening(_) => 2
    case Created(_) => 3
    case OuterTest => 4
    case Napping(_) => 5
    case NapTest(_) => 6
    case Leaving(_) => 7
    case Closing(_) => 8
    case _ => 9
  }

  /**
    Until it is stopped the reader always comes back to reading: it is inside
    `Read`, connected under its registered context, or every step of it brings
    it one nearer, at most eight steps away whatever happened to the connection,
    one of them the nap between two attempts.
   */
  lemma {:induction false} ReaderComesBack(run: seq<Action>)
    requires Exec(run).Some? && Exec(run).value.running
    ensures var c := Exec(run).value;
            && StepsToRead(c.reader) <= 8
            && (StepsToRead(c.reader) == 0 ==> c.connected && c.current == Some(c.reader.ctx))
            && (StepsToRead(c.reader) > 0 ==>
                  Enabled(c, Advance) && Do(c, Advance).running && StepsToRead(Do(c, Advance).reader) == StepsToRead(c.reader) - 1)
  {
    RunKeeps(run);
  }
}
