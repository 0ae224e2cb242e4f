/** What the archive is for: a run in which nothing goes wrong keeps every byte it has room for. */
module CleanRuns {
  import opened Wrappers
  import opened Capture
  import opened CaptureProofs
  import opened CaptureTheorems

  // ---- runs in which nothing goes wrong ------------------------------------------------------------------

  /** What can go wrong from outside: a stall, an abort, a sink that refuses or is late, an engine that leaves. */
  predicate Mishap(event: Event, side: Side) {
    event.On? && event.side == side &&
    match event.action
    case Pump(pump) => pump.Stall? || pump.Abort?
    case Task(task) => task.Refuse? || task.Expire?
    case Engine(engine) => engine.Leave?
  }

  predicate Clean(events: seq<Event>, side: Side) {
    forall event <- events :: !Mishap(event, side)
  }

  /** The settlement time of a verdict that was sent has not come. */
  predicate Unsettled(st: Stream, now: nat) {
    st.link.Sent? ==> now < st.link.verdict.settleBy
  }

  /** Nothing is let go while there is room, and there is a quota failure only once there is none. */
  predicate KeepsAll(limits: Limits, st: Stream) {
    && (st.books.failure.None? ==> !st.history.skipped && !st.disabled)
    && (st.books.failure.Some? ==> st.books.failure == Some(Quota) && st.books.retained == limits.streamBytes)
    && !st.sink.Outlasting? && !st.link.Gone?
    && (st.pump.Over? ==> st.history.how.Some?)
  }

  lemma PumpKeepsAll(limits: Limits, now: nat, action: PumpAction, l: Local)
    requires Inv(limits, l.st) && KeepsAll(limits, l.st) && CanPump(now, action, l)
    requires !action.Stall? && !action.Abort?
    ensures KeepsAll(limits, NextPump(now, action, l).st)
  {}

  lemma HandleKeepsAll(limits: Limits, now: nat, l: Local)
    requires Inv(limits, l.st) && KeepsAll(limits, l.st) && Unsettled(l.st, now) && CanTask(now, Handle, l)
    ensures KeepsAll(limits, NextTask(limits, now, Handle, l).st)
  {}

  lemma TaskKeepsAll(limits: Limits, now: nat, action: SinkAction, l: Local)
    requires Inv(limits, l.st) && KeepsAll(limits, l.st) && CanTask(now, action, l)
    requires !action.Refuse? && !action.Expire? && !action.Handle?
    ensures KeepsAll(limits, NextTask(limits, now, action, l).st)
  {}

  lemma EngineKeepsAll(limits: Limits, now: nat, action: EngineAction, l: Local)
    requires KeepsAll(limits, l.st) && CanEngine(limits, now, action, l) && !action.Leave?
    ensures KeepsAll(limits, NextEngine(limits, now, action, l).st)
  {}

  lemma StepKeepsAll(limits: Limits, s: State, event: Event, side: Side)
    requires GlobalInv(limits, s) && Legal(limits, s, event) && !Mishap(event, side)
    requires KeepsAll(limits, s.Of(side)) && Unsettled(s.Of(side), s.now)
    ensures KeepsAll(limits, Apply(limits, s, event).Of(side))
  {
    if event.On? && event.side == side {
      var l := Local(s.Of(side), s.room);
      match event.action
      case Pump(action) => PumpKeepsAll(limits, s.now, action, l);
      case Task(action) =>
        if action.Handle? {
          HandleKeepsAll(limits, s.now, l);
        } else {
          TaskKeepsAll(limits, s.now, action, l);
        }
      case Engine(action) => EngineKeepsAll(limits, s.now, action, l);
    }
  }

  /** A verdict that is still unsettled was unsettled before. */
  lemma UnsettledBefore(limits: Limits, s: State, event: Event, side: Side)
    requires Legal(limits, s, event) && Unsettled(Apply(limits, s, event).Of(side), Apply(limits, s, event).now)
    ensures Unsettled(s.Of(side), s.now)
  {
    if s.Of(side).link.Sent? {
      LinkStands(limits, s, event, side);
    }
  }

  lemma {:induction false} CleanRunsKeepAll(limits: Limits, events: seq<Event>, side: Side)
    requires Run(limits, events) && Clean(events, side)
    requires Unsettled(After(limits, events).Of(side), After(limits, events).now)
    ensures KeepsAll(limits, After(limits, events).Of(side))
  {
    if events != [] {
      var before, last := events[..|events| - 1], events[|events| - 1];
      assert last in events && forall event <- before :: event in events;
      UnsettledBefore(limits, After(limits, before), last, side);
      CleanRunsKeepAll(limits, before, side);
      RunKeeps(limits, before);
      StepKeepsAll(limits, After(limits, before), last, side);
    }
  }

  /** The reason a clean run leaves: the quota if the pipe held too much, else how it ended, else the verdict. */
  function CleanReason(limits: Limits, st: Stream): Reason
    requires st.history.how.Some? && st.link.Sent?
  {
    if limits.streamBytes < |st.history.read| then Quota
    else if st.history.how.value != Eof then st.history.how.value
    else st.link.verdict.reason.Or(Eof, reason => reason)
  }

  /**
    Whatever the interleaving, a run in which the pump never stalls or is aborted, the sink never
    refuses or is late, the engine stays, and its verdict has not yet settled, archives the pipe: while
    the pipe fits nothing fails and no chunk is let go, and once the sink is finalized what it accepted
    is exactly the first bytes of the pipe up to the limit, under the reason that says so.
   */
  lemma CleanRunsArchiveThePipe(limits: Limits, events: seq<Event>, side: Side)
    requires Run(limits, events) && Clean(events, side)
    requires Unsettled(After(limits, events).Of(side), After(limits, events).now)
    ensures var st := After(limits, events).Of(side);
            && (|st.history.read| <= limits.streamBytes ==>
                  st.books.failure.None? && !st.history.skipped && !st.disabled)
            && (IsFinal(st.sink) ==>
                  && st.history.accepted == st.history.read[..Min(limits.streamBytes, |st.history.read|)]
                  && st.history.how.Some? && st.link.Sent?
                  && st.sink.receipt == Receipt(|st.history.read|, CleanReason(limits, st)))
  {
    CleanRunsKeepAll(limits, events, side);
    RunKeeps(limits, events);
    CleanEnd(limits, After(limits, events).Of(side));
  }

  lemma CleanEnd(limits: Limits, st: Stream)
    requires Inv(limits, st) && KeepsAll(limits, st)
    ensures |st.history.read| <= limits.streamBytes ==>
              st.books.failure.None? && !st.history.skipped && !st.disabled
    ensures IsFinal(st.sink) ==>
              && st.history.accepted == st.history.read[..Min(limits.streamBytes, |st.history.read|)]
              && st.history.how.Some? && st.link.Sent?
              && st.sink.receipt == Receipt(|st.history.read|, CleanReason(limits, st))
  {
    NothingMore(st.history.accepted);
    NothingMore(st.history.staged);
    if IsFinal(st.sink) {
      ReceiptNamesItsCause(limits, st);
    }
  }

  // ---- the reason of any receipt -------------------------------------------------------------------------

  /** The first failure; else that the pipe's end was not seen, or was an error; else the verdict's; else none. */
  function Cause(st: Stream): Reason
    requires !st.link.Unsent?
  {
    if st.books.failure.Some? then st.books.failure.value
    else if st.history.how.None? then DrainExpired
    else if st.history.how == Some(ReadError) then ReadError
    else if st.link.Gone? then Cancelled
    else if st.link.verdict.reason.Some? then st.link.verdict.reason.value
    else Eof
  }

  lemma ReceiptNamesItsCause(limits: Limits, st: Stream)
    requires Inv(limits, st) && IsFinal(st.sink)
    ensures !st.link.Unsent? && st.sink.receipt == Receipt(|st.history.read|, Cause(st))
  {}

  /** In every run, a receipt gives the number of bytes read and the first cause that applies, in this order. */
  lemma ReceiptsNameTheirCause(limits: Limits, events: seq<Event>, side: Side)
    requires Run(limits, events) && IsFinal(After(limits, events).Of(side).sink)
    ensures var st := After(limits, events).Of(side);
            !st.link.Unsent? && st.sink.receipt == Receipt(|st.history.read|, Cause(st))
  {
    RunKeeps(limits, events);
    ReceiptNamesItsCause(limits, After(limits, events).Of(side));
  }

  /** A write is given its whole deadline, or what is left until the verdict settles when that is sooner. */
  lemma WritesHaveTheirTime(limits: Limits, now: nat, books: Books, bytes: seq<Byte>)
    requires books.failure.None? && books.retained < limits.streamBytes && bytes != []
    ensures var begun := books.Begin(limits, now, bytes);
            if books.known.Some? && books.known.value.settleBy <= now then begun == Dropped(books.Fail(Timeout))
            else begun == Started(Min(limits.streamBytes - books.retained, |bytes|),
                                  if books.known.None? then now + limits.deadline
                                  else Min(books.known.value.settleBy, now + limits.deadline))
  {}

  // ---- every pipe can be archived ------------------------------------------------------------------------

  function Joined(chunks: seq<seq<Byte>>): seq<Byte> {
    if chunks == [] then [] else chunks[0] + Joined(chunks[1..])
  }

  function Other(side: Side): Side {
    if side.Out? then Err else Out
  }

  /** Between two chunks: everything read so far is accepted, and the budget is whole. */
  predicate Ready(limits: Limits, events: seq<Event>, side: Side, archived: seq<Byte>) {
    Run(limits, events) &&
    var s := After(limits, events);
    var st := s.Of(side);
    && st.pump.Reading? && st.channel == [] && st.sink.Idle? && st.link.Unsent? && !st.disabled
    && st.books == Books(None, |archived|, None, None) && st.collected.Pending?
    && st.history.read == archived && st.history.accepted == archived
    && s.Of(Other(side)).link.Unsent? && s.room == limits.Budget()
  }

  /** A state one action of `side` later. */
  lemma Goes(limits: Limits, events: seq<Event>, side: Side, action: Action) returns (next: seq<Event>)
    requires Run(limits, events) && Legal(limits, After(limits, events), On(side, action))
    ensures next == events + [On(side, action)] && Run(limits, next)
    ensures var s := After(limits, events);
            After(limits, next) == s.With(side, Next(limits, s.now, action, Local(s.Of(side), s.room)))
  {
    next := events + [On(side, action)];
    OneMore(limits, events, On(side, action));
  }

  /** A chunk is read and staged. */
  lemma OneChunkStaged(limits: Limits, events: seq<Event>, side: Side, archived: seq<Byte>, chunk: seq<Byte>)
    returns (next: seq<Event>)
    requires Ready(limits, events, side, archived) && 0 < |chunk| <= READ_CHUNK
    ensures Run(limits, next) && After(limits, next) == AfterStaging(limits, After(limits, events), side, chunk)
  {
    next := OneChunkHeld(limits, events, side, archived, chunk);
    next := Goes(limits, next, side, Pump(Recheck));
    next := Goes(limits, next, side, Pump(Send));
  }

  lemma OneChunkHeld(limits: Limits, events: seq<Event>, side: Side, archived: seq<Byte>, chunk: seq<Byte>)
    returns (next: seq<Event>)
    requires Ready(limits, events, side, archived) && 0 < |chunk| <= READ_CHUNK
    ensures Run(limits, next) && After(limits, next) == AfterHolding(After(limits, events), side, chunk)
  {
    next := Goes(limits, events, side, Pump(Read(chunk)));
    next := Goes(limits, next, side, Pump(Check));
    next := Goes(limits, next, side, Pump(Acquire));
  }

  function AfterHolding(s: State, side: Side, chunk: seq<Byte>): State
    requires |chunk| <= s.room
  {
    var st := s.Of(side);
    s.With(side, Local(st.(pump := Holding(chunk), observed := st.observed + |chunk|,
                           history := st.history.(read := st.history.read + chunk)), s.room - |chunk|))
  }

  function AfterStaging(limits: Limits, s: State, side: Side, chunk: seq<Byte>): State
    requires |chunk| <= s.room
  {
    var st := s.Of(side);
    var h := st.history.(read := st.history.read + chunk, staged := st.history.staged + chunk);
    s.With(side, Local(st.(pump := Reading, observed := st.observed + |chunk|,
                           channel := st.channel + [Bytes(chunk)], history := h), s.room - |chunk|))
  }

  lemma OneChunkArchived(limits: Limits, events: seq<Event>, side: Side, archived: seq<Byte>, chunk: seq<Byte>)
    returns (next: seq<Event>)
    requires Ready(limits, events, side, archived)
    requires 0 < |chunk| <= READ_CHUNK && |archived| + |chunk| <= limits.streamBytes
    ensures Ready(limits, next, side, archived + chunk)
  {
    next := OneChunkWritten(limits, events, side, archived, chunk);
    next := Goes(limits, next, side, Task(Complete));
  }

  /** What a state needs for the write of `chunk` to leave it between two chunks again. */
  predicate WritingOne(limits: Limits, s: State, side: Side, archived: seq<Byte>, chunk: seq<Byte>) {
    var st := s.Of(side);
    && st.pump.Reading? && st.channel == [] && st.link.Unsent? && !st.disabled
    && st.sink.Writing? && st.sink.chunk == chunk && st.sink.take == |chunk|
    && st.books == Books(None, |archived|, None, None) && st.collected.Pending?
    && st.history.read == archived + chunk && st.history.accepted == archived
    && s.Of(Other(side)).link.Unsent? && s.room + |chunk| == limits.Budget()
  }

  lemma OneChunkWritten(limits: Limits, events: seq<Event>, side: Side, archived: seq<Byte>, chunk: seq<Byte>)
    returns (next: seq<Event>)
    requires Ready(limits, events, side, archived)
    requires 0 < |chunk| <= READ_CHUNK && |archived| + |chunk| <= limits.streamBytes
    ensures Run(limits, next) && WritingOne(limits, After(limits, next), side, archived, chunk)
  {
    next := OneChunkStaged(limits, events, side, archived, chunk);
    next := Goes(limits, next, side, Task(Receive));
    next := Goes(limits, next, side, Task(Handle));
  }

  lemma {:induction false} ChunksCanBeArchived(
      limits: Limits, events: seq<Event>, side: Side, archived: seq<Byte>, chunks: seq<seq<Byte>>)
    returns (next: seq<Event>)
    requires Ready(limits, events, side, archived)
    requires forall k :: 0 <= k < |chunks| ==> 0 < |chunks[k]| <= READ_CHUNK
    requires |archived| + |Joined(chunks)| <= limits.streamBytes
    ensures Ready(limits, next, side, archived + Joined(chunks))
    decreases |chunks|
  {
    if chunks == [] {
      NothingMore(archived);
      next := events;
    } else {
      next := OneChunkArchived(limits, events, side, archived, chunks[0]);
      next := ChunksCanBeArchived(limits, next, side, archived + chunks[0], chunks[1..]);
      Regrouped(archived, chunks[0], Joined(chunks[1..]));
    }
  }

  /** The pipe has ended, the verdict finds nothing wrong, and only the end is left to take in. */
  predicate EndGiven(limits: Limits, events: seq<Event>, side: Side, archived: seq<Byte>) {
    Run(limits, events) &&
    var st := After(limits, events).Of(side);
    && st.pump.Over? && st.link.Sent? && st.link.verdict.reason.None?
    && st.history.read == archived && st.history.accepted == archived && st.history.how == Some(Eof)
    && st.sink.Idle? && st.channel == [Ended(Eof)] && st.books.failure.None? && st.collected.Pending?
  }

  /** The pipe ends, the other pump is told to stop, and the verdict finds nothing wrong. */
  lemma TheEndIsGiven(limits: Limits, events: seq<Event>, side: Side, archived: seq<Byte>)
    returns (next: seq<Event>)
    requires Ready(limits, events, side, archived)
    ensures EndGiven(limits, next, side, archived)
  {
    next := Goes(limits, events, side, Pump(Finish(Eof)));
    next := Goes(limits, next, Other(side), Engine(AbortPump));
    next := Goes(limits, next, side, Engine(GiveVerdict(None)));
  }

  lemma TheSinkFinalizes(limits: Limits, events: seq<Event>, side: Side, archived: seq<Byte>)
    returns (next: seq<Event>)
    requires EndGiven(limits, events, side, archived)
    ensures Run(limits, next)
    ensures var st := After(limits, next).Of(side);
            && st.sink.Finalized? && st.link.Sent? && st.link.verdict.reason.None? && st.collected.Pending?
            && st.history.read == archived && st.history.accepted == archived && st.history.how == Some(Eof)
  {
    next := Goes(limits, events, side, Task(Receive));
    next := Goes(limits, next, side, Task(Handle));
    next := Goes(limits, next, side, Task(Drained));
    next := Goes(limits, next, side, Task(Settle));
    next := Goes(limits, next, side, Task(Finalize));
  }

  /**
    Every pipe of at most the stream's limit, cut into any chunks a read can give, has a run that
    archives all of it: the engine collects a receipt that says end of file, and the sink accepted exactly
    the pipe.
   */
  lemma EveryPipeCanBeArchived(limits: Limits, side: Side, chunks: seq<seq<Byte>>)
    requires forall k :: 0 <= k < |chunks| ==> 0 < |chunks[k]| <= READ_CHUNK
    requires |Joined(chunks)| <= limits.streamBytes
    ensures exists events :: Archives(limits, events, side, Joined(chunks))
  {
    assert Ready(limits, [], side, []);
    var events := ChunksCanBeArchived(limits, [], side, [], chunks);
    NothingMore(Joined(chunks));
    events := TheEndIsGiven(limits, events, side, Joined(chunks));
    events := TheSinkFinalizes(limits, events, side, Joined(chunks));
    EndOfFileMeansAll(limits, events, side);
    events := Goes(limits, events, side, Engine(Collect));
    assert Archives(limits, events, side, Joined(chunks));
  }

  predicate Archives(limits: Limits, events: seq<Event>, side: Side, pipe: seq<Byte>) {
    Run(limits, events) &&
    var st := After(limits, events).Of(side);
    st.collected == Receipted(Receipt(|pipe|, Eof)) && st.history.read == pipe && st.history.accepted == pipe
  }
}
