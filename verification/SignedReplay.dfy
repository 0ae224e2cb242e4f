/** The signed replay: when a response has one, and what it holds. */
module SignedReplay {
  import opened Wrappers
  import opened Stream
  import opened AnthropicStream
  import opened AnthropicStreamProofs
  import opened StreamEndings
  import opened HeldArguments

  // ---- an oversized call voids the replay ----------------------------------------------------------

  /** Some limited call passed its limit. */
  predicate Overflowed(policy: Policy, frames: seq<Frame>) {
    frames != []
    && (|| Overflowed(policy, frames[..|frames| - 1])
        || CellAfter(policy, frames, frames[|frames| - 1].Slot()).Over())
  }

  lemma {:induction false} OverOverflowed(policy: Policy, frames: seq<Frame>, index: nat)
    requires CellAfter(policy, frames, index).Over()
    ensures Overflowed(policy, frames)
  {
    var n := |frames| - 1;
    if frames[n].Slot() != index {
      OverOverflowed(policy, frames[..n], index);
    }
  }

  lemma LimitFrameVoids(policy: Policy, s: State, frame: Frame, cell: Cell)
    requires !s.closed && !LimitFrame(policy, s, frame).closed && Matches(s, cell, frame.Slot())
    ensures LimitFrame(policy, s, frame).void
         <==> s.void || (!cell.Over() && NextCell(policy, cell, frame, frame.Slot()).Over())
  {}

  lemma DispatchKeepsVoid(policy: Policy, s: State, frame: Frame)
    requires !s.closed && !Dispatch(policy, s, frame).closed
    ensures Dispatch(policy, s, frame).void == s.void
  {
    if frame.body.MessageStop? {
      CloseProceeds(policy, s);
    }
  }

  lemma ObserveVoids(policy: Policy, s: State, frame: Frame, cell: Cell)
    requires !s.closed && !Observe(policy, s, frame).closed && Matches(s, cell, frame.Slot())
    requires policy.arguments == [] ==> cell.Idle?
    ensures Observe(policy, s, frame).void
         <==> s.void || (!cell.Over() && NextCell(policy, cell, frame, frame.Slot()).Over())
  {
    var limited := if policy.arguments == [] then s else LimitFrame(policy, s, frame);
    LimitFrameFails(policy, s, frame);
    if policy.arguments != [] && !limited.closed {
      LimitFrameVoids(policy, s, frame, cell);
    }
    ReplayKeepsCalls(policy, limited, frame);
    ObserveReplayFails(policy, limited, frame);
    DispatchKeepsVoid(policy, ObserveReplay(policy, limited, frame), frame);
  }

  /** In an open stream the replay is void exactly when some limited call passed its limit. */
  lemma {:induction false} VoidExactlyWhenOverflowed(policy: Policy, ops: seq<Op>)
    requires !Run(policy, ops).state.closed
    ensures Run(policy, ops).state.void <==> Overflowed(policy, FramesOf(ops))
  {
    if ops != [] {
      var n := |ops| - 1;
      var x, op, frames := Run(policy, ops[..n]), ops[n], FramesOf(ops[..n]);
      if x.state.closed {
        StaysClosed(policy, x, op);
      }
      VoidExactlyWhenOverflowed(policy, ops[..n]);
      match op
      case Observed(Decoded(frame)) =>
        var cell := CellAfter(policy, frames, frame.Slot());
        DeliveredIsJudgedWhole(policy, ops[..n], frame.Slot());
        if policy.arguments == [] {
          NoLimitsNoCells(policy, frames, frame.Slot());
        }
        ObserveVoids(policy, x.state, frame, cell);
        OneFrameMore(policy, frames, frame, frame.Slot());
        OneOverflowMore(policy, frames, frame);
      case Closing => CloseProceeds(policy, x.state);
      case Failing(why) => FailFails(policy, x.state, why);
      case Taken => assert frames + [] == frames;
      case Observed(Garbled) => assert frames + [] == frames;
    }
  }

  lemma OneOverflowMore(policy: Policy, frames: seq<Frame>, frame: Frame)
    ensures var cell := CellAfter(policy, frames, frame.Slot());
            Overflowed(policy, frames + [frame])
            <==> Overflowed(policy, frames) || (!cell.Over() && NextCell(policy, cell, frame, frame.Slot()).Over())
  {
    assert (frames + [frame])[..|frames|] == frames;
    if CellAfter(policy, frames, frame.Slot()).Over() {
      OverOverflowed(policy, frames, frame.Slot());
    }
  }

  // ---- when a response has a signed replay ---------------------------------------------------------

  lemma ConcludeKeeps(s: State)
    ensures s.ready <= Conclude(s).ready && NoReplay(Conclude(s).ready[|s.ready|..])
  {}

  /** The replays among `events` are exactly one of `blocks`, or there are none. */
  predicate Replays(events: seq<Event<Stored>>, signed: bool, blocks: seq<Stored>) {
    && (signed <==> AssistantReplay(blocks) in events)
    && forall e <- events :: e.AssistantReplay? ==> signed && e == AssistantReplay(blocks)
  }

  lemma ReplaysJoin(a: seq<Event<Stored>>, signed: bool, blocks: seq<Stored>, b: seq<Event<Stored>>)
    ensures Replays(a, signed, blocks) && NoReplay(b) ==>
              Replays(a + b, signed, blocks) && Replays(b + a, signed, blocks)
  {
    assert forall k | 0 <= k < |a| :: a[k] == (a + b)[k] == (b + a)[|b| + k];
    assert forall k | 0 <= k < |b| :: b[k] == (a + b)[|a| + k] == (b + a)[k];
  }

  lemma CloseSigns(policy: Policy, s: State)
    requires !s.closed && !HasFinished(s.ready) && NoReplay(s.ready)
    ensures Replays(Close(policy, s).ready, Signs(policy, s), BlocksOf(s))
  {
    var r, blocks := Released(s), BlocksOf(s);
    ReleasedIsQuiet(s);
    if Signs(policy, s) {
      var pushed := r.Push(AssistantReplay(blocks));
      assert Replays([AssistantReplay(blocks)], true, blocks);
      ReplaysJoin([AssistantReplay(blocks)], true, blocks, r.ready);
      ConcludeKeeps(pushed);
      var more := Conclude(pushed).ready[|pushed.ready|..];
      assert Conclude(pushed).ready == pushed.ready + more;
      ReplaysJoin(pushed.ready, true, blocks, more);
    } else if !Withheld(policy, s) {
      ConcludeKeeps(r);
      NoReplayParts(r.ready, Conclude(r).ready[|r.ready|..]);
      assert Conclude(r).ready == r.ready + Conclude(r).ready[|r.ready|..];
    }
  }

  /**
    When an open stream closes, either way, it gives a signed replay exactly when no limited call
    passed its limit, it holds thinking, every thinking block has its signature and the replay is
    within the event budget. The replay is then every block received, in index order, and the only one.
   */
  lemma SignedExactlyWhen(policy: Policy, ops: seq<Op>, end: Op)
    requires !Run(policy, ops).state.closed && Ends(policy, Run(policy, ops).state, end)
    ensures var blocks := BlocksOf(Run(policy, ops).state);
            var signed := && !Overflowed(policy, FramesOf(ops))
                          && HasThinking(blocks) && !HasUnsigned(blocks) && Fits(policy, blocks);
            Replays(Run(policy, ops + [end]).Out(), signed, blocks)
  {
    var x := Run(policy, ops);
    EitherWayCloses(policy, ops, end);
    VoidExactlyWhenOverflowed(policy, ops);
    OpenIsMidway(policy, ops);
    OpenHasNotFinished(policy, ops);
    NoReplayParts(x.taken, x.state.ready);
    FinishedParts(x.taken, x.state.ready);
    CloseSigns(policy, x.state);
    ReplaysJoin(Close(policy, x.state).ready, Signs(policy, x.state), BlocksOf(x.state), x.taken);
  }

  /**
    Over every run at all: a signed replay is only ever given for a stream in which, while it was open,
    no limited call passed its limit; it is every block received, with every thinking block signed.
   */
  lemma ReplayMeansNoOverflow(policy: Policy, ops: seq<Op>, blocks: seq<Stored>)
    requires AssistantReplay(blocks) in Run(policy, ops).Out()
    ensures !Overflowed(policy, FramesOf(OpenPart(policy, ops)))
    ensures blocks == BlocksOf(Run(policy, OpenPart(policy, ops)).state)
    ensures HasThinking(blocks) && !HasUnsigned(blocks) && Fits(policy, blocks)
    ensures exists block <- blocks :: block.kind == ThinkingBlock || block.kind == RedactedBlock
    ensures forall block <- blocks :: block.kind == ThinkingBlock ==>
              block.signature.Some? && block.signature.value != ""
    ensures policy.limits.Some? ==> policy.replaySize(blocks) <= policy.limits.value.eventBytes
  {
    var e := AssistantReplay(blocks);
    if !Run(policy, ops).state.closed {
      OpenIsMidway(policy, ops);
    }
    var k, kept := ClosedRun(policy, ops);
    Recut(ops, k);
    var x := Run(policy, ops[..k]);
    ReplaySurvives(e, Run(policy, ops[..k + 1]).Out(), kept, Run(policy, ops).Out());
    if Ends(policy, x.state, ops[k]) {
      SignedExactlyWhen(policy, ops[..k], ops[k]);
    } else {
      OpenIsMidway(policy, ops[..k]);
      OtherClosingFails(policy, x, ops[k]);
      FailureAddsErrors(policy, x.taken, x.state, Do(policy, x, ops[k]).state);
    }
  }

  lemma ReplaySurvives(e: Event<Stored>, first: seq<Event<Stored>>, kept: nat, out: seq<Event<Stored>>)
    requires ErrorsAfter(first, kept, out) && e in out && !e.Error?
    ensures e in first
  {
    var j :| 0 <= j < |out| && out[j] == e;
    assert forall i | kept <= i < |out| :: out[i] == out[kept..][i - kept];
    assert out[..kept][j] == first[..kept][j] == first[j];
  }

  /** A stream that finished gave its signed replay exactly when it had thinking and nothing overflowed. */
  lemma FinishedSigned(policy: Policy, ops: seq<Op>)
    requires HasFinished(Run(policy, ops).Out())
    ensures var frames, blocks := FramesOf(OpenPart(policy, ops)), BlocksOf(Run(policy, OpenPart(policy, ops)).state);
            Replays(Run(policy, ops).Out(), !Overflowed(policy, frames) && HasThinking(blocks), blocks)
  {
    var k := FinishedRun(policy, ops);
    Recut(ops, k);
    VoidExactlyWhenOverflowed(policy, ops[..k]);
    SignedExactlyWhen(policy, ops[..k], ops[k]);
    var s := Run(policy, ops[..k]).state;
    ErrorsAddNoReplay(Run(policy, ops[..k + 1]).Out(), Run(policy, ops).Out(), Signs(policy, s), BlocksOf(s));
  }

  lemma ErrorsAddNoReplay(first: seq<Event<Stored>>, out: seq<Event<Stored>>, signed: bool, blocks: seq<Stored>)
    requires first <= out && AllErrors(out[|first|..]) && Replays(first, signed, blocks)
    ensures Replays(out, signed, blocks)
  {
    assert out == first + out[|first|..];
    ErrorsFinishNothing(out[|first|..]);
    ReplaysJoin(first, signed, blocks, out[|first|..]);
  }

  // ---- the held text is the replay's argument buffer -----------------------------------------------

  function Buffered(s: State, index: nat): string {
    if index in s.arguments then s.arguments[index] else ""
  }

  /** What a held call has kept is what the replay has buffered; an oversized call has kept nothing. */
  predicate Twin(s: State, index: nat) {
    index in s.held ==>
      (if s.held[index].oversized then index !in s.arguments else s.held[index].raw == Buffered(s, index))
  }

  predicate BuffersAreOpened(s: State) {
    forall index <- s.arguments :: index in s.calls
  }

  /** Halfway through a frame: the held text already has the frame's fragment, the buffer not yet. */
  predicate HalfTwin(s: State, frame: Frame, index: nat) {
    if frame.Slot() == index && frame.AddsArguments() then
      index in s.held ==>
        (if s.held[index].oversized then index !in s.arguments
         else s.held[index].raw == Buffered(s, index) + frame.Added())
    else Twin(s, index)
  }

  lemma LimitFrameTwin(policy: Policy, s: State, frame: Frame, index: nat)
    requires !s.closed && Twin(s, index) && BuffersAreOpened(s)
    requires frame.OpensCall() ==> frame.Slot() !in s.calls
    ensures var s' := LimitFrame(policy, s, frame);
            && (s'.closed || (HalfTwin(s', frame, index) && BuffersAreOpened(s')))
            && (s'.closed || !frame.AddsArguments() || frame.Slot() in s'.calls)
  {}

  predicate SameBuffers(s: State, s': State) {
    s'.closed || (SameCalls(s, s') && s'.arguments == s.arguments)
  }

  lemma StartKeepsBuffers(policy: Policy, s: State, at: nat, block: Stored)
    ensures SameBuffers(s, ObserveStart(policy, s, at, block))
  {}

  lemma StoreKeepsBuffers(policy: Policy, s: State, at: nat, opening: Opening)
    ensures SameBuffers(s, StoreBlock(policy, s, at, opening))
  {}

  lemma DeltaKeepsBuffers(s: State, at: nat, delta: Delta)
    ensures SameBuffers(s, ObserveDelta(s, at, delta))
  {}

  lemma ReplayTwin(policy: Policy, s: State, frame: Frame, index: nat)
    requires !s.closed && HalfTwin(s, frame, index) && BuffersAreOpened(s)
    requires frame.AddsArguments() ==> frame.Slot() in s.calls
    ensures TwinAfter(ObserveReplay(policy, s, frame), frame, index)
  {
    match frame.body
    case BlockStart(Some(opening)) =>
      StoreKeepsBuffers(policy, s, frame.Slot(), opening);
      SameBuffersTwin(s, StoreBlock(policy, s, frame.Slot(), opening), frame, index);
    case BlockDelta(Some(delta)) =>
      AbsorbTwin(policy, s, frame, index);
      BoundedTwin(policy, AbsorbDelta(policy, s, frame.Slot(), delta), frame, index);
    case BlockStop =>
      SealTwin(policy, s, frame.Slot(), index);
      BoundedTwin(policy, SealBlock(policy, s, frame.Slot()), frame, index);
    case _ => BoundedTwin(policy, s, frame, index);
  }

  /** After the replay has seen a frame, the two agree again; a stopped block is about to be released. */
  predicate TwinAfter(s: State, frame: Frame, index: nat) {
    s.closed || (BuffersAreOpened(s) && ((frame.Slot() == index && frame.body.BlockStop?) || Twin(s, index)))
  }

  lemma BoundedTwin(policy: Policy, s: State, frame: Frame, index: nat)
    requires TwinAfter(s, frame, index)
    ensures TwinAfter(Bounded(policy, s), frame, index)
  {}

  lemma SameBuffersTwin(s: State, s': State, frame: Frame, index: nat)
    requires SameBuffers(s, s') && Twin(s, index) && BuffersAreOpened(s)
    ensures TwinAfter(s', frame, index)
  {}

  lemma AbsorbTwin(policy: Policy, s: State, frame: Frame, index: nat)
    requires frame.body.BlockDelta? && frame.body.delta.Some?
    requires !s.closed && HalfTwin(s, frame, index) && BuffersAreOpened(s)
    requires frame.AddsArguments() ==> frame.Slot() in s.calls
    ensures var s' := AbsorbDelta(policy, s, frame.Slot(), frame.body.delta.value);
            s'.closed || (BuffersAreOpened(s') && Twin(s', index))
  {}

  lemma SealTwin(policy: Policy, s: State, at: nat, index: nat)
    requires !s.closed && Twin(s, index) && BuffersAreOpened(s)
    ensures var s' := SealBlock(policy, s, at);
            s'.closed || (BuffersAreOpened(s') && (at == index || Twin(s', index)))
  {}

  lemma DispatchTwin(policy: Policy, s: State, frame: Frame, index: nat)
    requires !s.closed && BuffersAreOpened(s)
    requires (frame.Slot() == index && frame.body.BlockStop?) || Twin(s, index)
    ensures var s' := Dispatch(policy, s, frame);
            s'.closed || (BuffersAreOpened(s') && Twin(s', index) && s'.calls == s.calls)
  {
    match frame.body
    case BlockStart(Some(Opened(block, _))) => StartKeepsBuffers(policy, s, frame.Slot(), block);
    case BlockDelta(Some(delta)) => DeltaKeepsBuffers(s, frame.Slot(), delta);
    case MessageStop => CloseProceeds(policy, s);
    case _ =>
  }

  lemma ObserveTwin(policy: Policy, s: State, frame: Frame, index: nat)
    requires policy.arguments != [] && !s.closed && !Observe(policy, s, frame).closed
    requires Twin(s, index) && BuffersAreOpened(s) && (frame.OpensCall() ==> frame.Slot() !in s.calls)
    ensures var s' := Observe(policy, s, frame);
            && Twin(s', index) && BuffersAreOpened(s')
            && s'.calls == s.calls + (if frame.OpensCall() then {frame.Slot()} else {})
  {
    var limited := LimitFrame(policy, s, frame);
    var kept := ObserveReplay(policy, limited, frame);
    LimitFrameTwin(policy, s, frame, index);
    ReplayTwin(policy, limited, frame, index);
    ReplayKeepsCalls(policy, limited, frame);
    DispatchTwin(policy, kept, frame, index);
  }

  /** The blocks opened as tool calls. */
  function Opened(frames: seq<Frame>): set<nat> {
    if frames == [] then {}
    else
      var last := frames[|frames| - 1];
      Opened(frames[..|frames| - 1]) + if last.OpensCall() then {last.Slot()} else {}
  }

  /** No block is opened as a tool call twice. */
  predicate OpenedOnce(frames: seq<Frame>) {
    frames == []
    || (var n := |frames| - 1;
        OpenedOnce(frames[..n]) && (frames[n].OpensCall() ==> frames[n].Slot() !in Opened(frames[..n])))
  }

  /**
    Under argument limits, while a stream is open and each call was opened once, a held call that has
    not passed its limit holds exactly the text the replay has buffered for it.
   */
  lemma {:induction false} HeldIsTheReplayBuffer(policy: Policy, ops: seq<Op>, index: nat)
    requires policy.arguments != [] && !Run(policy, ops).state.closed && OpenedOnce(FramesOf(ops))
    ensures Twin(Run(policy, ops).state, index) && BuffersAreOpened(Run(policy, ops).state)
    ensures Run(policy, ops).state.calls == Opened(FramesOf(ops))
  {
    if ops != [] {
      var n := |ops| - 1;
      var x, op, frames := Run(policy, ops[..n]), ops[n], FramesOf(ops[..n]);
      if x.state.closed {
        StaysClosed(policy, x, op);
      }
      OpenedOnceBefore(frames, op);
      HeldIsTheReplayBuffer(policy, ops[..n], index);
      StepTwin(policy, x, op, frames, index);
    }
  }

  lemma OpenedOnceBefore(frames: seq<Frame>, op: Op)
    requires OpenedOnce(frames + FrameOf(op))
    ensures OpenedOnce(frames)
  {
    NothingMore(frames);
    if FrameOf(op) != [] {
      OpenedOneMore(frames, FrameOf(op)[0]);
    }
  }

  lemma OpenedOneMore(frames: seq<Frame>, frame: Frame)
    ensures Opened(frames + [frame]) == Opened(frames) + if frame.OpensCall() then {frame.Slot()} else {}
    ensures OpenedOnce(frames + [frame]) <==>
            OpenedOnce(frames) && (frame.OpensCall() ==> frame.Slot() !in Opened(frames))
  {
    assert (frames + [frame])[..|frames|] == frames;
  }

  lemma StepTwin(policy: Policy, x: Session, op: Op, frames: seq<Frame>, index: nat)
    requires policy.arguments != [] && !x.state.closed && !Do(policy, x, op).state.closed
    requires OpenedOnce(frames + FrameOf(op)) && x.state.calls == Opened(frames)
    requires Twin(x.state, index) && BuffersAreOpened(x.state)
    ensures var s' := Do(policy, x, op).state;
            Twin(s', index) && BuffersAreOpened(s') && s'.calls == Opened(frames + FrameOf(op))
  {
    NothingMore(frames);
    match op
    case Observed(Decoded(frame)) =>
      OpenedOneMore(frames, frame);
      ObserveTwin(policy, x.state, frame, index);
    case Closing => CloseProceeds(policy, x.state);
    case Failing(why) => FailFails(policy, x.state, why);
    case Taken =>
    case Observed(Garbled) =>
  }

  // ---- every fragment of a block is in its replay --------------------------------------------------

  /** A text field of a block: none until the block starts, then its opening value and every fragment. */
  function NextWritten(
      written: Option<Option<string>>, frame: Frame, index: nat, field: Field): Option<Option<string>> {
    if frame.Slot() != index then written
    else match frame.body
      case BlockStart(Some(Opened(block, _))) => Some(block.Of(field))
      case BlockDelta(Some(Fragment(f, Some(text)))) =>
        if f == field && written.Some? then Some(Some(written.value.Or("", t => t) + text)) else written
      case _ => written
  }

  function Written(frames: seq<Frame>, index: nat, field: Field): Option<Option<string>> {
    if frames == [] then None
    else NextWritten(Written(frames[..|frames| - 1], index, field), frames[|frames| - 1], index, field)
  }

  predicate Holds(s: State, written: Option<Option<string>>, index: nat, field: Field) {
    if written.None? then index !in s.blocks else index in s.blocks && s.blocks[index].Of(field) == written.value
  }

  predicate SameBlocks(s: State, s': State) {
    s'.closed || s'.blocks == s.blocks
  }

  lemma LimitKeepsBlocks(policy: Policy, s: State, frame: Frame)
    ensures SameBlocks(s, LimitFrame(policy, s, frame))
  {}

  lemma StartKeepsBlocks(policy: Policy, s: State, at: nat, block: Stored)
    ensures SameBlocks(s, ObserveStart(policy, s, at, block))
  {}

  lemma DispatchKeepsBlocks(policy: Policy, s: State, frame: Frame)
    requires !s.closed
    ensures SameBlocks(s, Dispatch(policy, s, frame))
  {
    match frame.body
    case BlockStart(Some(Opened(block, _))) => StartKeepsBlocks(policy, s, frame.Slot(), block);
    case MessageStop => CloseProceeds(policy, s);
    case _ =>
  }

  lemma StoreHolds(
      policy: Policy, s: State, at: nat, opening: Opening, written: Option<Option<string>>, index: nat,
      field: Field)
    requires Holds(s, written, index, field)
    ensures var s' := StoreBlock(policy, s, at, opening);
            s'.closed || s.closed
            || (opening.Opened? && Holds(s', if at == index then Some(opening.block.Of(field)) else written, index,
                                         field))
  {
    var s' := StoreBlock(policy, s, at, opening);
    if !s'.closed && !s.closed {
      assert opening.Opened? && s'.blocks == s.blocks[at := opening.block];
    }
  }

  lemma AbsorbHolds(policy: Policy, s: State, frame: Frame, written: Option<Option<string>>, index: nat, field: Field)
    requires frame.body.BlockDelta? && frame.body.delta.Some? && field != PartialJson && Holds(s, written, index, field)
    ensures var s' := AbsorbDelta(policy, s, frame.Slot(), frame.body.delta.value);
            s'.closed || Holds(s', NextWritten(written, frame, index, field), index, field)
  {}

  lemma SealHolds(policy: Policy, s: State, at: nat, written: Option<Option<string>>, index: nat, field: Field)
    requires Holds(s, written, index, field)
    ensures var s' := SealBlock(policy, s, at);
            s'.closed || Holds(s', written, index, field)
  {}

  lemma ReplayHolds(policy: Policy, s: State, frame: Frame, written: Option<Option<string>>, index: nat, field: Field)
    requires !s.closed && field != PartialJson && Holds(s, written, index, field)
    ensures var s' := ObserveReplay(policy, s, frame);
            s'.closed || Holds(s', NextWritten(written, frame, index, field), index, field)
  {
    match frame.body
    case BlockStart(Some(opening)) => StoreHolds(policy, s, frame.Slot(), opening, written, index, field);
    case BlockDelta(Some(delta)) =>
      AbsorbHolds(policy, s, frame, written, index, field);
      BoundedHolds(policy, AbsorbDelta(policy, s, frame.Slot(), delta), NextWritten(written, frame, index, field),
                   index, field);
    case BlockStop =>
      SealHolds(policy, s, frame.Slot(), written, index, field);
      BoundedHolds(policy, SealBlock(policy, s, frame.Slot()), written, index, field);
    case _ => BoundedHolds(policy, s, written, index, field);
  }

  lemma BoundedHolds(policy: Policy, s: State, written: Option<Option<string>>, index: nat, field: Field)
    requires s.closed || Holds(s, written, index, field)
    ensures Bounded(policy, s).closed || Holds(Bounded(policy, s), written, index, field)
  {}

  /**
    Every block of an open stream holds, in each of its text fields, its opening value followed by
    every fragment that arrived for it, however the fragments of other blocks are interleaved: a
    signature is never cut and never mixed up.
   */
  lemma {:induction false} BlocksHoldEveryFragment(policy: Policy, ops: seq<Op>, index: nat, field: Field)
    requires field != PartialJson && !Run(policy, ops).state.closed
    ensures Holds(Run(policy, ops).state, Written(FramesOf(ops), index, field), index, field)
  {
    if ops != [] {
      var n := |ops| - 1;
      var x, op, frames := Run(policy, ops[..n]), ops[n], FramesOf(ops[..n]);
      if x.state.closed {
        StaysClosed(policy, x, op);
      }
      BlocksHoldEveryFragment(policy, ops[..n], index, field);
      match op
      case Observed(Decoded(frame)) =>
        assert (frames + [frame])[..|frames|] == frames;
        ObserveHolds(policy, x.state, frame, Written(frames, index, field), index, field);
      case Closing => CloseProceeds(policy, x.state);
      case Failing(why) => FailFails(policy, x.state, why);
      case Taken => assert frames + [] == frames;
      case Observed(Garbled) => assert frames + [] == frames;
    }
  }

  lemma ObserveHolds(policy: Policy, s: State, frame: Frame, written: Option<Option<string>>, index: nat, field: Field)
    requires !s.closed && !Observe(policy, s, frame).closed && field != PartialJson && Holds(s, written, index, field)
    ensures Holds(Observe(policy, s, frame), NextWritten(written, frame, index, field), index, field)
  {
    var limited := if policy.arguments == [] then s else LimitFrame(policy, s, frame);
    LimitKeepsBlocks(policy, s, frame);
    LimitFrameFails(policy, s, frame);
    ReplayHolds(policy, limited, frame, written, index, field);
    DispatchKeepsBlocks(policy, ObserveReplay(policy, limited, frame), frame);
  }

  // ---- every block is in the replay, as it opened ----------------------------------------------------

  /** The block a slot was last started with. */
  function StartedAs(frames: seq<Frame>, index: nat): Option<Stored> {
    if frames == [] then None
    else
      var last := frames[|frames| - 1];
      match last.body
      case BlockStart(Some(Opened(block, _))) =>
        if last.Slot() == index then Some(block) else StartedAs(frames[..|frames| - 1], index)
      case _ => StartedAs(frames[..|frames| - 1], index)
  }

  /** The same block but for its text, its thinking, its signature and its input. */
  predicate SameBlock(a: Stored, b: Stored) {
    a.kind == b.kind && a.id == b.id && a.name == b.name && a.rest == b.rest
  }

  predicate Opens(s: State, started: Option<Stored>, index: nat) {
    if started.None? then index !in s.blocks else index in s.blocks && SameBlock(s.blocks[index], started.value)
  }

  lemma StoreOpens(policy: Policy, s: State, at: nat, opening: Opening, started: Option<Stored>, index: nat)
    requires !s.closed && Opens(s, started, index)
    ensures var s' := StoreBlock(policy, s, at, opening);
            s'.closed
            || (opening.Opened? && Opens(s', if at == index then Some(opening.block) else started, index))
  {
    var s' := StoreBlock(policy, s, at, opening);
    if !s'.closed {
      assert opening.Opened? && s'.blocks == s.blocks[at := opening.block];
    }
  }

  lemma AbsorbOpens(policy: Policy, s: State, at: nat, delta: Delta, started: Option<Stored>, index: nat)
    requires Opens(s, started, index)
    ensures AbsorbDelta(policy, s, at, delta).closed || Opens(AbsorbDelta(policy, s, at, delta), started, index)
  {}

  lemma SealOpens(policy: Policy, s: State, at: nat, started: Option<Stored>, index: nat)
    requires Opens(s, started, index)
    ensures SealBlock(policy, s, at).closed || Opens(SealBlock(policy, s, at), started, index)
  {}

  lemma BoundedOpens(policy: Policy, s: State, started: Option<Stored>, index: nat)
    requires s.closed || Opens(s, started, index)
    ensures Bounded(policy, s).closed || Opens(Bounded(policy, s), started, index)
  {}

  lemma ReplayOpens(policy: Policy, s: State, frame: Frame, frames: seq<Frame>, index: nat)
    requires !s.closed && Opens(s, StartedAs(frames, index), index)
    ensures var s' := ObserveReplay(policy, s, frame);
            s'.closed || Opens(s', StartedAs(frames + [frame], index), index)
  {
    var started := StartedAs(frames, index);
    assert (frames + [frame])[..|frames|] == frames;
    match frame.body
    case BlockStart(Some(opening)) => StoreOpens(policy, s, frame.Slot(), opening, started, index);
    case BlockDelta(Some(delta)) =>
      AbsorbOpens(policy, s, frame.Slot(), delta, started, index);
      BoundedOpens(policy, AbsorbDelta(policy, s, frame.Slot(), delta), started, index);
    case BlockStop =>
      SealOpens(policy, s, frame.Slot(), started, index);
      BoundedOpens(policy, SealBlock(policy, s, frame.Slot()), started, index);
    case _ => BoundedOpens(policy, s, started, index);
  }

  lemma ObserveOpens(policy: Policy, s: State, frame: Frame, frames: seq<Frame>, index: nat)
    requires !s.closed && !Observe(policy, s, frame).closed && Opens(s, StartedAs(frames, index), index)
    ensures Opens(Observe(policy, s, frame), StartedAs(frames + [frame], index), index)
  {
    var limited := if policy.arguments == [] then s else LimitFrame(policy, s, frame);
    LimitKeepsBlocks(policy, s, frame);
    LimitFrameFails(policy, s, frame);
    ReplayOpens(policy, limited, frame, frames, index);
    DispatchKeepsBlocks(policy, ObserveReplay(policy, limited, frame), frame);
  }

  /** At every point of an open stream each block is the one that was started, apart from what deltas change. */
  lemma {:induction false} BlocksStayThemselves(policy: Policy, ops: seq<Op>, index: nat)
    requires !Run(policy, ops).state.closed
    ensures Opens(Run(policy, ops).state, StartedAs(FramesOf(ops), index), index)
  {
    if ops != [] {
      var n := |ops| - 1;
      var x, op, frames := Run(policy, ops[..n]), ops[n], FramesOf(ops[..n]);
      if x.state.closed {
        StaysClosed(policy, x, op);
      }
      BlocksStayThemselves(policy, ops[..n], index);
      NothingMore(frames);
      match op
      case Observed(Decoded(frame)) => ObserveOpens(policy, x.state, frame, frames, index);
      case Closing => CloseProceeds(policy, x.state);
      case Failing(why) => FailFails(policy, x.state, why);
      case Taken =>
      case Observed(Garbled) =>
    }
  }

  /** The values of a map below a bound are those of its keys there, each once, in key order. */
  lemma {:induction false} ValuesAreInOrder(blocks: map<nat, Stored>, end: nat) returns (keys: seq<nat>)
    ensures |keys| == |ValuesBelow(blocks, end)|
    ensures forall i, j :: 0 <= i < j < |keys| ==> keys[i] < keys[j]
    ensures forall key :: key in keys <==> key in blocks && key < end
    ensures forall k :: 0 <= k < |keys| ==> keys[k] in blocks && ValuesBelow(blocks, end)[k] == blocks[keys[k]]
  {
    if end == 0 {
      keys := [];
    } else {
      keys := ValuesAreInOrder(blocks, end - 1);
      assert forall k :: 0 <= k < |keys| ==> keys[k] in keys;
      if end - 1 in blocks {
        keys := keys + [end - 1];
      }
    }
  }
}
