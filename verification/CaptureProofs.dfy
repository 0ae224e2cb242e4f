/**
  What every run of the evidence archive keeps: no gap is archived, permits are conserved, no byte
  is counted after the settlement deadline, and "end of file" means all of it.
*/
module CaptureProofs {
  import opened Wrappers
  import opened Capture

  // ---- where the bytes are ------------------------------------------------------------------

  /** The bytes queued in a channel, in order. */
  function Payload(channel: seq<Staged>): seq<Byte> {
    if channel == [] then []
    else (if channel[0].Bytes? then channel[0].bytes else []) + Payload(channel[1..])
  }

  predicate HasStop(channel: seq<Staged>) {
    channel != [] && (channel[0].Stopped? || HasStop(channel[1..]))
  }

  predicate HasEnd(channel: seq<Staged>) {
    channel != [] && (channel[0].Ended? || HasEnd(channel[1..]))
  }

  /** Whether a message may travel in a stream whose pipe ended as `how` says. */
  predicate Sound(message: Staged, how: Option<Reason>) {
    match message
    case Bytes(bytes) => bytes != []
    case Stopped(reason) => reason != Eof
    case Ended(reason) => how == Some(reason)
  }

  predicate AllSound(channel: seq<Staged>, how: Option<Reason>) {
    channel == [] || (Sound(channel[0], how) && AllSound(channel[1..], how))
  }

  /** What staging one more message adds to a channel. */
  lemma {:induction false} StagingPayload(channel: seq<Staged>, message: Staged)
    ensures Payload(channel + [message]) == Payload(channel) + (if message.Bytes? then message.bytes else [])
  {
    if channel == [] {
      assert channel + [message] == [message];
    } else {
      StagingPayload(channel[1..], message);
      assert (channel + [message])[1..] == channel[1..] + [message];
    }
  }

  lemma {:induction false} Staging(channel: seq<Staged>, message: Staged, how: Option<Reason>)
    ensures HasStop(channel + [message]) <==> HasStop(channel) || message.Stopped?
    ensures HasEnd(channel + [message]) <==> HasEnd(channel) || message.Ended?
    ensures AllSound(channel + [message], how) <==> AllSound(channel, how) && Sound(message, how)
  {
    if channel == [] {
      assert channel + [message] == [message];
      assert [message][1..] == [];
    } else {
      Staging(channel[1..], message, how);
      assert (channel + [message])[1..] == channel[1..] + [message];
    }
  }

  /** Before the pipe's end is staged, the channel does not depend on how it will end. */
  lemma {:induction false} NoEndYet(channel: seq<Staged>, how: Option<Reason>)
    requires AllSound(channel, None)
    ensures AllSound(channel, how) && !HasEnd(channel)
  {
    if channel != [] {
      NoEndYet(channel[1..], how);
    }
  }

  /** The chunk a pump has read and not yet staged or skipped. */
  function InHand(pump: Pump): seq<Byte> {
    match pump
    case Counted(bytes) => bytes
    case Admitted(bytes) => bytes
    case Waiting(bytes, _) => bytes
    case Holding(bytes) => bytes
    case Cleared(bytes) => bytes
    case _ => []
  }

  /** The chunk a sink's task may still write, whole or in part. */
  function AtSink(sink: Sink): seq<Byte> {
    match sink
    case Received(message) => if message.Bytes? then message.bytes else []
    case Writing(chunk, _, _) => chunk
    case _ => []
  }

  /** Permits a pump holds. */
  function PumpHolds(pump: Pump): nat {
    if pump.Holding? || pump.Cleared? then |pump.bytes| else 0
  }

  /** Permits a sink's task holds: those of the chunk it is dealing with. */
  function SinkHolds(sink: Sink): nat {
    if sink.Outlasting? then |sink.chunk| else |AtSink(sink)|
  }

  /** Every permit held on behalf of one stream. */
  function Held(st: Stream): nat {
    PumpHolds(st.pump) + |Payload(st.channel)| + SinkHolds(st.sink)
  }

  // ---- the invariant of one stream --------------------------------------------------------------

  predicate Shaped(st: Stream) {
    && (InHand(st.pump) != [] <==>
          st.pump.Counted? || st.pump.Admitted? || st.pump.Waiting? || st.pump.Holding? || st.pump.Cleared?)
    && |InHand(st.pump)| <= READ_CHUNK
    && AllSound(st.channel, st.history.how)
    && (st.sink.Received? ==> Sound(st.sink.message, st.history.how))
    && (st.sink.Writing? || st.sink.Outlasting? ==> 0 < st.sink.take <= |st.sink.chunk|)
  }

  predicate Counts(limits: Limits, st: Stream) {
    && st.observed == |st.history.read|
    && st.books.retained == |st.history.accepted| <= limits.streamBytes
    && (st.sink.Writing? ==>
          && st.books.failure.None?
          && st.sink.take == Min(limits.streamBytes - st.books.retained, |st.sink.chunk|))
  }

  /** Bytes move from the pipe to the sink in order, and nothing follows a byte that was let go. */
  predicate Flow(st: Stream) {
    var h := st.history;
    && (!h.skipped ==> h.read == h.staged + InHand(st.pump))
    && (h.skipped ==>
          && h.staged <= h.read && |h.staged| < |h.read|
          && !st.pump.Admitted? && !st.pump.Waiting? && !st.pump.Holding? && !st.pump.Cleared?)
    && (st.books.failure.None? ==> h.late == [] && h.accepted + AtSink(st.sink) + Payload(st.channel) == h.staged)
    && (st.books.failure.Some? ==> h.accepted + h.late <= h.staged && |h.accepted| < |h.read|)
    && (st.sink.Outlasting? ==>
          && st.books.failure.Some? && h.late == []
          && h.accepted + st.sink.chunk[..Min(st.sink.take, |st.sink.chunk|)] <= h.staged)
  }

  predicate StopComing(st: Stream) {
    st.pump.Stopping? || (st.sink.Received? && st.sink.message.Stopped?) || HasStop(st.channel)
  }

  /** Capture is off exactly for a reason the sink's task knows or is about to be told. */
  predicate Flags(st: Stream) {
    && (st.books.failure.Some? ==> st.disabled)
    && (st.disabled && st.books.failure.None? ==> st.history.skipped && StopComing(st))
    && (StopComing(st) ==> st.history.skipped)
    && (st.history.skipped ==> st.disabled || (st.pump.Over? && st.history.how.None?))
    && (st.pump.Stopping? ==> st.disabled && st.pump.reason != Eof)
    && st.books.failure != Some(Eof)
  }

  predicate EndComing(st: Stream) {
    st.books.ended.Some? || (st.sink.Received? && st.sink.message.Ended?) || HasEnd(st.channel)
  }

  /** The sink's task learns how the pipe ended only from a pump that saw it end. */
  predicate Endings(st: Stream) {
    && (st.history.how.Some? ==>
          st.pump.Over? && EndComing(st) && (st.history.how.value.Eof? || st.history.how.value.ReadError?))
    && (st.books.ended.Some? ==> st.books.ended == st.history.how)
  }

  predicate Knows(st: Stream) {
    && (st.books.known.Some? ==> !st.link.Unsent?)
    && (st.books.known.Some? && st.link.Sent? ==> st.books.known == Some(st.link.verdict))
    && (st.books.known.Some? && st.link.Gone? ==> st.books.known.value.reason == Some(Cancelled))
    && (st.link.Sent? ==> st.link.verdict.reason.None? || st.link.verdict.reason == Some(Cancelled))
  }

  predicate IsFinal(sink: Sink) {
    sink.Finalizing? || sink.Finalized?
  }

  /** Finalizing comes last, once, and with what the books say. */
  predicate Finality(st: Stream) {
    && (st.sink.Settling? || IsFinal(st.sink) ==> st.pump.Over? && st.channel == [])
    && st.history.finalizations == (if IsFinal(st.sink) then 1 else 0)
    && st.history.started == st.history.completed + (if st.sink.Writing? || st.sink.Outlasting? then 1 else 0)
    && (IsFinal(st.sink) ==>
          && (st.books.known.Some? || !st.link.Unsent?)
          && st.sink.receipt == Receipt(st.observed, st.books.Reason(st.books.Settled(st.link))))
    && (st.collected.Receipted? ==> st.sink == Finalized(st.collected.receipt))
  }

  predicate Data(limits: Limits, st: Stream) {
    Shaped(st) && Counts(limits, st) && Flow(st)
  }

  predicate Control(st: Stream) {
    Flags(st) && Endings(st) && Knows(st) && Finality(st)
  }

  predicate Inv(limits: Limits, st: Stream) {
    Data(limits, st) && Control(st)
  }

  // ---- every action keeps it ------------------------------------------------------------------

  /** An action keeps its stream's invariant, and moves permits without making or losing any. */
  predicate Kept(limits: Limits, l: Local, l': Local) {
    Inv(limits, l'.st) && l'.room + Held(l'.st) == l.room + Held(l.st)
  }

  lemma SendKeepsData(limits: Limits, now: nat, l: Local)
    requires Inv(limits, l.st) && CanPump(now, Send, l)
    ensures var l' := NextPump(now, Send, l);
            Data(limits, l'.st) && l'.room + Held(l'.st) == l.room + Held(l.st)
  {
    var message := Bytes(l.st.pump.bytes);
    StagingPayload(l.st.channel, message);
    Staging(l.st.channel, message, l.st.history.how);
    Regrouped(l.st.history.accepted + AtSink(l.st.sink), Payload(l.st.channel), l.st.pump.bytes);
  }

  lemma SendKeeps(limits: Limits, now: nat, l: Local)
    requires Inv(limits, l.st) && CanPump(now, Send, l)
    ensures Kept(limits, l, NextPump(now, Send, l))
  {
    SendKeepsData(limits, now, l);
    Staging(l.st.channel, Bytes(l.st.pump.bytes), l.st.history.how);
  }

  lemma TellStopKeeps(limits: Limits, now: nat, l: Local)
    requires Inv(limits, l.st) && CanPump(now, TellStop, l)
    ensures Kept(limits, l, NextPump(now, TellStop, l))
  {
    var message := Stopped(l.st.pump.reason);
    StagingPayload(l.st.channel, message);
    Staging(l.st.channel, message, l.st.history.how);
  }

  lemma FinishKeeps(limits: Limits, now: nat, how: Reason, l: Local)
    requires Inv(limits, l.st) && CanPump(now, Finish(how), l)
    ensures Kept(limits, l, NextPump(now, Finish(how), l))
  {
    NoEndYet(l.st.channel, Some(how));
    StagingPayload(l.st.channel, Ended(how));
    Staging(l.st.channel, Ended(how), Some(how));
  }

  lemma ReadKeeps(limits: Limits, now: nat, bytes: seq<Byte>, l: Local)
    requires Inv(limits, l.st) && CanPump(now, Read(bytes), l)
    ensures Kept(limits, l, NextPump(now, Read(bytes), l))
  {}

  lemma CheckKeepsData(limits: Limits, now: nat, l: Local)
    requires Inv(limits, l.st) && CanPump(now, Check, l)
    ensures Data(limits, NextPump(now, Check, l).st)
  {}

  lemma CheckKeeps(limits: Limits, now: nat, l: Local)
    requires Inv(limits, l.st) && CanPump(now, Check, l)
    ensures Kept(limits, l, NextPump(now, Check, l))
  {
    CheckKeepsData(limits, now, l);
  }

  lemma AcquireKeeps(limits: Limits, now: nat, l: Local)
    requires Inv(limits, l.st) && CanPump(now, Acquire, l)
    ensures Kept(limits, l, NextPump(now, Acquire, l))
  {}

  lemma QueueKeeps(limits: Limits, now: nat, l: Local)
    requires Inv(limits, l.st) && CanPump(now, Queue, l)
    ensures Kept(limits, l, NextPump(now, Queue, l))
  {}

  lemma GrantKeeps(limits: Limits, now: nat, l: Local)
    requires Inv(limits, l.st) && CanPump(now, Grant, l)
    ensures Kept(limits, l, NextPump(now, Grant, l))
  {}

  lemma RecheckKeepsData(limits: Limits, now: nat, l: Local)
    requires Inv(limits, l.st) && CanPump(now, Recheck, l)
    ensures Data(limits, NextPump(now, Recheck, l).st)
  {}

  lemma RecheckKeeps(limits: Limits, now: nat, l: Local)
    requires Inv(limits, l.st) && CanPump(now, Recheck, l)
    ensures Kept(limits, l, NextPump(now, Recheck, l))
  {
    RecheckKeepsData(limits, now, l);
  }

  lemma StallKeepsData(limits: Limits, now: nat, l: Local)
    requires Inv(limits, l.st) && CanPump(now, Stall, l)
    ensures Data(limits, NextPump(now, Stall, l).st)
  {}

  lemma StallKeeps(limits: Limits, now: nat, l: Local)
    requires Inv(limits, l.st) && CanPump(now, Stall, l)
    ensures Kept(limits, l, NextPump(now, Stall, l))
  {
    StallKeepsData(limits, now, l);
  }

  lemma AbortKeeps(limits: Limits, now: nat, l: Local)
    requires Inv(limits, l.st) && CanPump(now, Abort, l)
    ensures Kept(limits, l, NextPump(now, Abort, l))
  {}

  lemma ReceiveKeeps(limits: Limits, now: nat, l: Local)
    requires Inv(limits, l.st) && CanTask(now, Receive, l)
    ensures Kept(limits, l, NextTask(limits, now, Receive, l))
  {}

  lemma HandleMessageKeeps(limits: Limits, now: nat, l: Local)
    requires Inv(limits, l.st) && CanTask(now, Handle, l) && !l.st.sink.message.Bytes?
    ensures Kept(limits, l, NextTask(limits, now, Handle, l))
  {}

  lemma DropKeeps(limits: Limits, now: nat, l: Local, begun: Begun)
    requires Inv(limits, l.st) && CanTask(now, Handle, l) && l.st.sink.message.Bytes?
    requires begun == l.st.books.Poll(l.st.link, now, limits.deadline).Begin(limits, now, l.st.sink.message.bytes)
    requires begun.Dropped?
    ensures Kept(limits, l, NextTask(limits, now, Handle, l))
  {}

  lemma StartKeeps(limits: Limits, now: nat, l: Local, begun: Begun)
    requires Inv(limits, l.st) && CanTask(now, Handle, l) && l.st.sink.message.Bytes?
    requires begun == l.st.books.Poll(l.st.link, now, limits.deadline).Begin(limits, now, l.st.sink.message.bytes)
    requires begun.Started?
    ensures Kept(limits, l, NextTask(limits, now, Handle, l))
  {}

  lemma CompleteKeeps(limits: Limits, now: nat, l: Local)
    requires Inv(limits, l.st) && CanTask(now, Complete, l)
    ensures Kept(limits, l, NextTask(limits, now, Complete, l))
  {}

  lemma RefuseKeeps(limits: Limits, now: nat, reason: Reason, l: Local)
    requires Inv(limits, l.st) && CanTask(now, Refuse(reason), l)
    ensures Kept(limits, l, NextTask(limits, now, Refuse(reason), l))
  {}

  lemma ExpireKeeps(limits: Limits, now: nat, l: Local)
    requires Inv(limits, l.st) && CanTask(now, Expire, l)
    ensures Kept(limits, l, NextTask(limits, now, Expire, l))
  {}

  lemma LateDoneKeeps(limits: Limits, now: nat, ok: bool, l: Local)
    requires Inv(limits, l.st) && CanTask(now, LateDone(ok), l)
    ensures Kept(limits, l, NextTask(limits, now, LateDone(ok), l))
  {}

  lemma NoteBehindKeeps(limits: Limits, now: nat, l: Local)
    requires Inv(limits, l.st) && CanTask(now, NoteBehind, l)
    ensures Kept(limits, l, NextTask(limits, now, NoteBehind, l))
  {}

  lemma ClosingKeeps(limits: Limits, now: nat, action: SinkAction, l: Local)
    requires Inv(limits, l.st) && CanTask(now, action, l) && (action.Drained? || action.Settle? || action.Finalize?)
    ensures Kept(limits, l, NextTask(limits, now, action, l))
  {}

  lemma VerdictKeeps(limits: Limits, now: nat, action: EngineAction, l: Local)
    requires Inv(limits, l.st) && CanEngine(limits, now, action, l)
    requires action.GiveVerdict? || action.Leave?
    ensures Kept(limits, l, NextEngine(limits, now, action, l))
  {}

  lemma CollectingKeeps(limits: Limits, now: nat, action: EngineAction, l: Local)
    requires Inv(limits, l.st) && CanEngine(limits, now, action, l)
    requires action.AbortPump? || action.Collect? || action.GiveUp?
    ensures Kept(limits, l, NextEngine(limits, now, action, l))
  {}

  lemma ActionKeeps(limits: Limits, now: nat, action: Action, l: Local)
    requires Inv(limits, l.st) && Can(limits, now, action, l)
    ensures Kept(limits, l, Next(limits, now, action, l))
  {
    match action
    case Pump(pump) =>
      match pump {
        case Read(bytes) => ReadKeeps(limits, now, bytes, l);
        case Acquire => AcquireKeeps(limits, now, l);
        case Queue => QueueKeeps(limits, now, l);
        case Check => CheckKeeps(limits, now, l);
        case Recheck => RecheckKeeps(limits, now, l);
        case Grant => GrantKeeps(limits, now, l);
        case Stall => StallKeeps(limits, now, l);
        case Abort => AbortKeeps(limits, now, l);
        case Finish(how) => FinishKeeps(limits, now, how, l);
        case Send => SendKeeps(limits, now, l);
        case TellStop => TellStopKeeps(limits, now, l);
      }
    case Task(task) =>
      match task {
        case Receive => ReceiveKeeps(limits, now, l);
        case Handle =>
          if l.st.sink.message.Bytes? {
            var begun := l.st.books.Poll(l.st.link, now, limits.deadline).Begin(limits, now, l.st.sink.message.bytes);
            if begun.Dropped? {
              DropKeeps(limits, now, l, begun);
            } else {
              StartKeeps(limits, now, l, begun);
            }
          } else {
            HandleMessageKeeps(limits, now, l);
          }
        case Complete => CompleteKeeps(limits, now, l);
        case Refuse(reason) => RefuseKeeps(limits, now, reason, l);
        case Expire => ExpireKeeps(limits, now, l);
        case LateDone(ok) => LateDoneKeeps(limits, now, ok, l);
        case NoteBehind => NoteBehindKeeps(limits, now, l);
        case Drained => ClosingKeeps(limits, now, task, l);
        case Settle => ClosingKeeps(limits, now, task, l);
        case Finalize => ClosingKeeps(limits, now, task, l);
      }
    case Engine(engine) =>
      match engine {
        case GiveVerdict(_) => VerdictKeeps(limits, now, engine, l);
        case Leave => VerdictKeeps(limits, now, engine, l);
        case AbortPump => CollectingKeeps(limits, now, engine, l);
        case Collect => CollectingKeeps(limits, now, engine, l);
        case GiveUp => CollectingKeeps(limits, now, engine, l);
      }
  }

  // ---- every run ------------------------------------------------------------------------------

  predicate GlobalInv(limits: Limits, s: State) {
    Inv(limits, s.out) && Inv(limits, s.err) && s.room + Held(s.out) + Held(s.err) == limits.Budget()
  }

  lemma StepKeeps(limits: Limits, s: State, event: Event)
    requires GlobalInv(limits, s) && Legal(limits, s, event)
    ensures GlobalInv(limits, Apply(limits, s, event))
  {
    if event.On? {
      ActionKeeps(limits, s.now, event.action, Local(s.Of(event.side), s.room));
    }
  }

  lemma {:induction false} RunKeeps(limits: Limits, events: seq<Event>)
    requires Run(limits, events)
    ensures GlobalInv(limits, After(limits, events))
  {
    if events != [] {
      var before := events[..|events| - 1];
      RunKeeps(limits, before);
      StepKeeps(limits, After(limits, before), events[|events| - 1]);
    }
  }
}
