/**
  The evidence archive of the local shell adapter, as a concurrent step relation.

  Two streams share one staging budget and one clock. In each stream a pump reads a pipe and
  stages exact copies of its chunks, a task owns the sink and writes what was staged, and the
  engine sends one verdict. Every action below is one indivisible step of one of them: what a
  task does between two points where another task can see or change shared state.
*/
module Capture {
  import opened Wrappers

  type Byte = bv8

  const READ_CHUNK: nat := 8 * 1024
  const STALL_MAX: nat := 1_000
  const DRAIN_GRACE: nat := 2_000

  datatype Reason =
    | Eof | Quota | WriteError | ReadError | Timeout | Cancelled | DrainExpired | Unsupported

  /** The bounds of one call; times are in milliseconds. */
  datatype Limits = Limits(streamBytes: nat, stagingBytes: nat, deadline: nat) {
    /** The half of the staging budget that is queued between the pumps and the sinks. */
    function Budget(): nat {
      if stagingBytes / 2 < READ_CHUNK then READ_CHUNK else stagingBytes / 2
    }

    /** How long one pump may wait for room, in all. */
    function Stall(): nat {
      Min(deadline, STALL_MAX)
    }
  }

  datatype Verdict = Verdict(reason: Option<Reason>, settleBy: nat)

  /** The one-shot channel the verdict travels on. */
  datatype Link = Unsent | Sent(verdict: Verdict) | Gone

  datatype Staged = Bytes(bytes: seq<Byte>) | Stopped(reason: Reason) | Ended(reason: Reason)

  // ---- what the sink's task keeps to itself -----------------------------------------------

  datatype Books = Books(
    known: Option<Verdict>,
    retained: nat,
    failure: Option<Reason>,
    ended: Option<Reason>)
  {
    function Fail(reason: Reason): Books {
      if failure.None? then this.(failure := Some(reason)) else this
    }

    /** Takes in one message that is not written. */
    function Note(message: Staged): Books {
      match message
      case Bytes(_) => this
      case Stopped(reason) => Fail(reason)
      case Ended(reason) => this.(ended := Some(reason))
    }

    function Poll(link: Link, now: nat, deadline: nat): Books {
      if known.Some? then this
      else match link
        case Unsent => this
        case Sent(verdict) => this.(known := Some(verdict))
        case Gone => this.(known := Some(Verdict(Some(Cancelled), now + deadline)))
    }

    function WriteLimit(now: nat, deadline: nat): Option<nat> {
      match known
      case None => Some(deadline)
      case Some(verdict) =>
        var left := Less(verdict.settleBy, now);
        if left == 0 then None else Some(Min(left, deadline))
    }

    function Begin(limits: Limits, now: nat, bytes: seq<Byte>): Begun {
      if failure.Some? then Dropped(this)
      else
        var take := Min(Less(limits.streamBytes, retained), |bytes|);
        if take == 0 then Dropped(if 0 < |bytes| then Fail(Quota) else this)
        else
          match WriteLimit(now, limits.deadline)
          case None => Dropped(Fail(Timeout))
          case Some(limit) => Started(take, now + limit)
    }

    function End(bytes: seq<Byte>, take: nat, outcome: Outcome): Books {
      match outcome
      case Done =>
        var counted := this.(retained := retained + take);
        if take < |bytes| then counted.Fail(Quota) else counted
      case Refused(reason) => Fail(reason)
      case Overdue => Fail(Timeout)
    }

    /** The reason the receipt records, given the command's own verdict. */
    function Reason(verdict: Option<Reason>): Reason {
      if failure.Some? then failure.value
      else
        var pipe := if ended.Some? then ended.value else DrainExpired;
        if pipe != Eof then pipe
        else if verdict.Some? then verdict.value
        else Eof
    }

    /** The verdict's reason once it has arrived; a vanished engine counts as a cancellation. */
    function Settled(link: Link): Option<Reason>
      requires known.Some? || !link.Unsent?
    {
      if known.Some? then known.value.reason
      else match link
        case Sent(verdict) => verdict.reason
        case Gone => Some(Cancelled)
    }
  }

  datatype Begun = Dropped(books: Books) | Started(take: nat, expires: nat)
  datatype Outcome = Done | Refused(reason: Reason) | Overdue

  // ---- one stream --------------------------------------------------------------------------

  /** Where a pump is between two of its atomic steps. */
  datatype Pump =
    | Reading
    | Counted(bytes: seq<Byte>)               // observed, not yet checked against `disabled`
    | Admitted(bytes: seq<Byte>)              // capture was on; about to take permits
    | Waiting(bytes: seq<Byte>, since: nat)   // queued for permits
    | Holding(bytes: seq<Byte>)               // has permits; about to check `disabled` again
    | Cleared(bytes: seq<Byte>)               // about to stage
    | Stopping(reason: Reason)                // switched capture off; about to say why
    | Over

  datatype Receipt = Receipt(observed: nat, reason: Reason)

  /** Where a sink's task is between two of its atomic steps. */
  datatype Sink =
    | Idle
    | Received(message: Staged)
    | Writing(chunk: seq<Byte>, take: nat, expires: nat)
    | Outlasting(chunk: seq<Byte>, take: nat)
    | Settling
    | Finalizing(receipt: Receipt)
    | Finalized(receipt: Receipt)

  datatype Collected = Pending | Receipted(receipt: Receipt) | Uncertain

  /** Observations of a run that no step reads. */
  datatype History = History(
    read: seq<Byte>,         // the pipe's bytes, as the pump read them
    staged: seq<Byte>,       // the bytes the pump handed to the sink's task
    accepted: seq<Byte>,     // the bytes of writes that finished in time
    late: seq<Byte>,         // the bytes of the write that finished after its deadline
    how: Option<Reason>,     // how the pipe ended, when the pump saw it end
    skipped: bool,           // whether the pump let a chunk go unstaged
    stalled: nat,            // how long the pump has waited for room, in all
    countedAt: Option<nat>,  // when bytes were last counted as retained
    started: nat,            // writes begun
    completed: nat,          // writes finished, in time or not
    finalizations: nat)

  datatype Stream = Stream(
    pump: Pump,
    stallLeft: nat,
    aborting: bool,
    disabled: bool,
    observed: nat,
    channel: seq<Staged>,
    books: Books,
    sink: Sink,
    link: Link,
    collected: Collected,
    history: History)

  function NewStream(limits: Limits): Stream {
    Stream(Reading, limits.Stall(), false, false, 0, [], Books(None, 0, None, None), Idle, Unsent, Pending,
           History([], [], [], [], None, false, 0, None, 0, 0, 0))
  }

  datatype PumpAction =
    | Read(bytes: seq<Byte>) | Finish(how: Reason)
    | Check | Acquire | Queue | Grant | Stall | Recheck | Send | TellStop | Abort

  datatype SinkAction =
    | Receive | Handle | Complete | Refuse(reason: Reason) | Expire
    | NoteBehind | LateDone(ok: bool) | Drained | Settle | Finalize

  datatype EngineAction = AbortPump | GiveVerdict(verdict: Option<Reason>) | Leave | Collect | GiveUp

  datatype Action = Pump(pump: PumpAction) | Task(task: SinkAction) | Engine(engine: EngineAction)

  /** A stream and the permits left in the shared budget. */
  datatype Local = Local(st: Stream, room: nat)

  predicate CanPump(now: nat, action: PumpAction, l: Local) {
    var pump := l.st.pump;
    match action
    case Read(bytes) => pump.Reading? && 0 < |bytes| <= READ_CHUNK
    case Finish(how) => pump.Reading? && (how == Eof || how == ReadError)
    case Check => pump.Counted?
    case Acquire => pump.Admitted?
    case Queue => pump.Admitted?
    case Grant => pump.Waiting? && |pump.bytes| <= l.room
    case Stall => pump.Waiting? && pump.since + l.st.stallLeft <= now
    case Recheck => pump.Holding?
    case Send => pump.Cleared?
    case TellStop => pump.Stopping?
    case Abort => l.st.aborting && (pump.Reading? || pump.Waiting?)
  }

  predicate CanTask(now: nat, action: SinkAction, l: Local) {
    var st := l.st;
    match action
    case Receive => st.sink.Idle? && st.channel != []
    case Handle => st.sink.Received?
    case Complete => st.sink.Writing?
    case Refuse(reason) =>
      st.sink.Writing? && (reason.Quota? || reason.Unsupported? || reason.Timeout? || reason.WriteError?)
    case Expire => st.sink.Writing? && st.sink.expires <= now
    case NoteBehind => st.sink.Outlasting? && st.channel != []
    case LateDone(_) => st.sink.Outlasting?
    case Drained => st.sink.Idle? && st.channel == [] && st.pump.Over?
    case Settle => st.sink.Settling? && (st.books.known.Some? || !st.link.Unsent?)
    case Finalize => st.sink.Finalizing?
  }

  predicate CanEngine(limits: Limits, now: nat, action: EngineAction, l: Local) {
    var st := l.st;
    match action
    case AbortPump => true
    case GiveVerdict(verdict) => st.link.Unsent? && (verdict.None? || verdict.value == Cancelled)
    case Leave => st.link.Unsent?
    case Collect => st.link.Sent? && st.collected.Pending? && st.sink.Finalized?
    case GiveUp => st.link.Sent? && st.collected.Pending? && st.link.verdict.settleBy + limits.deadline <= now
  }

  /** Whether an action can happen, as far as its own stream can tell. */
  predicate Can(limits: Limits, now: nat, action: Action, l: Local) {
    match action
    case Pump(pump) => CanPump(now, pump, l)
    case Task(task) => CanTask(now, task, l)
    case Engine(engine) => CanEngine(limits, now, engine, l)
  }

  /** Spends the time waited since `since` out of the pump's allowance. */
  function Spend(st: Stream, now: nat, since: nat): Stream {
    var elapsed := Less(now, since);
    st.(stallLeft := Less(st.stallLeft, elapsed),
        history := st.history.(stalled := st.history.stalled + elapsed))
  }

  function Skip(st: Stream): Stream {
    st.(pump := Reading, history := st.history.(skipped := true))
  }

  function NextPump(now: nat, action: PumpAction, l: Local): Local
    requires CanPump(now, action, l)
  {
    var st := l.st;
    match action
    case Read(bytes) =>
      l.(st := st.(pump := Counted(bytes), observed := st.observed + |bytes|,
                   history := st.history.(read := st.history.read + bytes)))
    case Finish(how) =>
      l.(st := st.(pump := Over, channel := st.channel + [Ended(how)],
                   history := st.history.(how := Some(how))))
    case Check =>
      l.(st := if st.disabled then Skip(st) else st.(pump := Admitted(st.pump.bytes)))
    case Acquire =>
      if |st.pump.bytes| <= l.room
      then Local(st.(pump := Holding(st.pump.bytes)), l.room - |st.pump.bytes|)
      else l.(st := st.(pump := Waiting(st.pump.bytes, now)))
    case Queue => l.(st := st.(pump := Waiting(st.pump.bytes, now)))
    case Grant =>
      Local(Spend(st, now, st.pump.since).(pump := Holding(st.pump.bytes)), l.room - |st.pump.bytes|)
    case Stall =>
      var spent := Skip(Spend(st, now, st.pump.since));
      l.(st := if st.disabled then spent else spent.(disabled := true, pump := Stopping(Timeout)))
    case Recheck =>
      if st.disabled
      then Local(Skip(st), l.room + |st.pump.bytes|)
      else l.(st := st.(pump := Cleared(st.pump.bytes)))
    case Send =>
      l.(st := st.(pump := Reading, channel := st.channel + [Bytes(st.pump.bytes)],
                   history := st.history.(staged := st.history.staged + st.pump.bytes)))
    case TellStop =>
      l.(st := st.(pump := Reading, channel := st.channel + [Stopped(st.pump.reason)]))
    case Abort =>
      l.(st := if st.pump.Waiting? then Skip(Spend(st, now, st.pump.since)).(pump := Over) else st.(pump := Over))
  }

  /** Records the books a step of the task leaves; a failure also switches the pump's staging off. */
  function Keep(st: Stream, books: Books): Stream {
    st.(books := books, disabled := st.disabled || books.failure.Some?)
  }

  function Weight(message: Staged): nat {
    if message.Bytes? then |message.bytes| else 0
  }

  function NextTask(limits: Limits, now: nat, action: SinkAction, l: Local): Local
    requires CanTask(now, action, l)
  {
    var st := l.st;
    match action
    case Receive => l.(st := st.(sink := Received(st.channel[0]), channel := st.channel[1..]))
    case Handle =>
      var polled := st.books.Poll(st.link, now, limits.deadline);
      if st.sink.message.Bytes? then
        var bytes := st.sink.message.bytes;
        match polled.Begin(limits, now, bytes)
        case Dropped(books) => Local(Keep(st, books).(sink := Idle), l.room + |bytes|)
        case Started(take, expires) =>
          l.(st := st.(books := polled, sink := Writing(bytes, take, expires),
                       history := st.history.(started := st.history.started + 1)))
      else
        l.(st := Keep(st, polled.Note(st.sink.message)).(sink := Idle))
    case Complete =>
      var accepted := st.history.accepted + st.sink.chunk[..Min(st.sink.take, |st.sink.chunk|)];
      Local(Keep(st, st.books.End(st.sink.chunk, st.sink.take, Done))
              .(sink := Idle, history := st.history.(accepted := accepted, countedAt := Some(now),
                                                     completed := st.history.completed + 1)),
            l.room + |st.sink.chunk|)
    case Refuse(reason) =>
      Local(Keep(st, st.books.End(st.sink.chunk, st.sink.take, Refused(reason)))
              .(sink := Idle, history := st.history.(completed := st.history.completed + 1)),
            l.room + |st.sink.chunk|)
    case Expire =>
      l.(st := Keep(st, st.books.End(st.sink.chunk, st.sink.take, Overdue))
                 .(sink := Outlasting(st.sink.chunk, st.sink.take)))
    case NoteBehind =>
      Local(Keep(st, st.books.Note(st.channel[0])).(channel := st.channel[1..]),
            l.room + Weight(st.channel[0]))
    case LateDone(ok) =>
      var late := if ok then st.sink.chunk[..Min(st.sink.take, |st.sink.chunk|)] else [];
      Local(st.(sink := Idle, history := st.history.(late := st.history.late + late,
                                                     completed := st.history.completed + 1)),
            l.room + |st.sink.chunk|)
    case Drained => l.(st := st.(sink := Settling))
    case Settle =>
      var receipt := Receipt(st.observed, st.books.Reason(st.books.Settled(st.link)));
      l.(st := st.(sink := Finalizing(receipt),
                   history := st.history.(finalizations := st.history.finalizations + 1)))
    case Finalize => l.(st := st.(sink := Finalized(st.sink.receipt)))
  }

  function NextEngine(limits: Limits, now: nat, action: EngineAction, l: Local): Local
    requires CanEngine(limits, now, action, l)
  {
    var st := l.st;
    match action
    case AbortPump => l.(st := st.(aborting := true))
    case GiveVerdict(verdict) => l.(st := st.(link := Sent(Verdict(verdict, now + limits.deadline))))
    case Leave => l.(st := st.(link := Gone))
    case Collect => l.(st := st.(collected := Receipted(st.sink.receipt)))
    case GiveUp => l.(st := st.(collected := Uncertain))
  }

  function Next(limits: Limits, now: nat, action: Action, l: Local): Local
    requires Can(limits, now, action, l)
  {
    match action
    case Pump(pump) => NextPump(now, pump, l)
    case Task(task) => NextTask(limits, now, task, l)
    case Engine(engine) => NextEngine(limits, now, engine, l)
  }

  // ---- the whole call ------------------------------------------------------------------------

  datatype Side = Out | Err

  datatype State = State(out: Stream, err: Stream, room: nat, now: nat) {
    function Of(side: Side): Stream {
      if side.Out? then out else err
    }

    function With(side: Side, l: Local): State {
      if side.Out? then this.(out := l.st, room := l.room) else this.(err := l.st, room := l.room)
    }
  }

  datatype Event = On(side: Side, action: Action) | Tick(elapsed: nat)

  function Init(limits: Limits): State {
    State(NewStream(limits), NewStream(limits), limits.Budget(), 0)
  }

  /** The engine sends its verdicts once both pumps have ended or been told to. */
  predicate PumpsJoined(s: State) {
    (s.out.pump.Over? || s.out.aborting) && (s.err.pump.Over? || s.err.aborting)
  }

  predicate Legal(limits: Limits, s: State, event: Event) {
    match event
    case Tick(_) => true
    case On(side, action) =>
      Can(limits, s.now, action, Local(s.Of(side), s.room))
      && (action.Engine? && action.engine.GiveVerdict? ==> PumpsJoined(s))
  }

  function Apply(limits: Limits, s: State, event: Event): State
    requires Legal(limits, s, event)
  {
    match event
    case Tick(elapsed) => s.(now := s.now + elapsed)
    case On(side, action) => s.With(side, Next(limits, s.now, action, Local(s.Of(side), s.room)))
  }

  /** Whether `events` is a run of the protocol. */
  predicate Run(limits: Limits, events: seq<Event>)
    decreases |events|, 0
  {
    if events == [] then true
    else
      var before := events[..|events| - 1];
      Run(limits, before) && Legal(limits, After(limits, before), events[|events| - 1])
  }

  /** The state a run ends in. */
  function After(limits: Limits, events: seq<Event>): State
    requires Run(limits, events)
    decreases |events|, 1
  {
    if events == [] then Init(limits)
    else Apply(limits, After(limits, events[..|events| - 1]), events[|events| - 1])
  }

  /** Timers are urgent: time does not pass an armed deadline before that timer is handled. */
  predicate Timely(st: Stream, now: nat) {
    (st.pump.Waiting? ==> now <= st.pump.since + st.stallLeft) && (st.sink.Writing? ==> now <= st.sink.expires)
  }

  predicate TimedRun(limits: Limits, events: seq<Event>) {
    Run(limits, events) &&
    (events != [] ==>
      TimedRun(limits, events[..|events| - 1]) &&
      var s := After(limits, events);
      Timely(s.out, s.now) && Timely(s.err, s.now))
  }
}
