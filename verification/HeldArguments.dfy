/** Held tool arguments: what the coupled maps amount to, seen from one block. */
module HeldArguments {
  import opened Wrappers
  import opened Stream
  import opened AnthropicStream
  import opened AnthropicStreamProofs
  import opened StreamEndings

  // ---- one block's arguments: concatenate, then judge ----------------------------------------------

  /** A block is streaming its arguments through, or everything since its call opened is collected. */
  datatype Cell = Idle | Collecting(limit: nat, text: string) {
    predicate Over() {
      Collecting? && limit < |text|
    }
  }

  /** What a collecting block still owes. */
  function Owed(cell: Cell): string {
    if cell.Collecting? then Judged(cell.limit, cell.text) else ""
  }

  predicate OpensLimited(policy: Policy, frame: Frame) {
    frame.OpensCall() && policy.CallLimit(frame.body.opening.value.block).Some?
  }

  function NextCell(policy: Policy, cell: Cell, frame: Frame, index: nat): Cell {
    if frame.Slot() != index then cell
    else if OpensLimited(policy, frame) then Collecting(policy.CallLimit(frame.body.opening.value.block).value, "")
    else if frame.AddsArguments() && cell.Collecting? then Collecting(cell.limit, cell.text + frame.Added())
    else if frame.body.BlockStop? then Idle
    else cell
  }

  /** The argument text one frame delivers for `index`. */
  function Emits(cell: Cell, frame: Frame, index: nat): string {
    if frame.Slot() != index then ""
    else if frame.AddsArguments() && cell.Idle? then frame.Added()
    else if frame.body.BlockStop? then Owed(cell)
    else ""
  }

  function CellAfter(policy: Policy, frames: seq<Frame>, index: nat): Cell {
    if frames == [] then Idle
    else NextCell(policy, CellAfter(policy, frames[..|frames| - 1], index), frames[|frames| - 1], index)
  }

  function DeliveredBy(policy: Policy, frames: seq<Frame>, index: nat): string {
    if frames == [] then ""
    else
      var n := |frames| - 1;
      DeliveredBy(policy, frames[..n], index) + Emits(CellAfter(policy, frames[..n], index), frames[n], index)
  }

  // ---- the accumulator against it ------------------------------------------------------------------

  predicate Matches(s: State, cell: Cell, index: nat) {
    match cell
    case Idle => index !in s.held
    case Collecting(limit, text) =>
      index in s.held && s.held[index] == if limit < |text| then Held(limit, "", true) else Held(limit, text, false)
  }

  lemma LimitFrameMatches(policy: Policy, s: State, frame: Frame, cell: Cell, index: nat)
    requires !s.closed && Matches(s, cell, index)
    ensures var s' := LimitFrame(policy, s, frame);
            s'.closed || (s'.ready == s.ready
                          && Matches(s', if frame.body.BlockStop? then cell else NextCell(policy, cell, frame, index),
                                     index))
  {}

  predicate SameCalls(s: State, s': State) {
    s'.held == s.held && s'.calls == s.calls && s'.void == s.void
  }

  lemma AbsorbKeepsCalls(policy: Policy, s: State, index: nat, delta: Delta)
    ensures SameCalls(s, AbsorbDelta(policy, s, index, delta))
  {}

  lemma SealKeepsCalls(policy: Policy, s: State, index: nat)
    ensures SameCalls(s, SealBlock(policy, s, index))
  {}

  lemma StoreKeepsCalls(policy: Policy, s: State, index: nat, opening: Opening)
    ensures SameCalls(s, StoreBlock(policy, s, index, opening))
  {}

  lemma ReplayKeepsCalls(policy: Policy, s: State, frame: Frame)
    ensures SameCalls(s, ObserveReplay(policy, s, frame))
  {
    match frame.body
    case BlockStart(Some(opening)) => StoreKeepsCalls(policy, s, frame.Slot(), opening);
    case BlockDelta(Some(delta)) => AbsorbKeepsCalls(policy, s, frame.Slot(), delta);
    case BlockStop => SealKeepsCalls(policy, s, frame.Slot());
    case _ =>
  }

  function Adds(event: Option<Event<Stored>>, index: nat): string {
    if event.None? then "" else ArgumentText(event.value, index)
  }

  lemma TellDelivers(s: State, event: Option<Event<Stored>>, index: nat)
    ensures Delivered(s.Tell(event).ready, index) == Delivered(s.ready, index) + Adds(event, index)
  {
    if event.Some? {
      DeliveredNext(s.ready, event.value, index);
    } else {
      NothingMore(Delivered(s.ready, index));
    }
  }

  lemma QuietTell(s: State, event: Option<Event<Stored>>, index: nat)
    requires Adds(event, index) == ""
    ensures Delivered(s.Tell(event).ready, index) == Delivered(s.ready, index)
    ensures SameCalls(s, s.Tell(event))
  {
    TellDelivers(s, event, index);
    NothingMore(Delivered(s.ready, index));
  }

  lemma OpenDelivers(policy: Policy, s: State, at: nat, block: Stored, index: nat)
    ensures var s' := OpenToolUse(policy, s, at, block);
            SameCalls(s, s') && (s'.closed || Delivered(s'.ready, index) == Delivered(s.ready, index))
  {
    var event := CallEvent(at, block);
    if !(event.Error? && policy.limits.Some?) {
      QuietTell(s, Some(event), index);
    }
  }

  lemma StartDelivers(policy: Policy, s: State, at: nat, block: Stored, index: nat)
    ensures var s' := ObserveStart(policy, s, at, block);
            SameCalls(s, s') && (s'.closed || Delivered(s'.ready, index) == Delivered(s.ready, index))
  {
    if block.kind == ToolUseBlock {
      OpenDelivers(policy, s, at, block, index);
    } else {
      ToldAddsNothing(block.text, false, index);
      ToldAddsNothing(block.thinking, true, index);
      QuietTell(s, if block.kind == TextBlock then Told(block.text, false)
                   else if block.kind == ThinkingBlock then Told(block.thinking, true)
                   else None, index);
    }
  }

  lemma ToldAddsNothing(text: Option<string>, reasoning: bool, index: nat)
    ensures Adds(Told(text, reasoning), index) == ""
  {}

  /** The argument text a delta delivers for `index`, unless the call is held. */
  function DeltaText(held: bool, at: nat, delta: Delta, index: nat): string {
    if at == index && !held && delta.Fragment? && delta.field == PartialJson && delta.text.Some? then delta.text.value
    else ""
  }

  lemma DeltaAdds(held: bool, at: nat, delta: Delta, index: nat)
    ensures Adds(DeltaEvent(held, at, delta), index) == DeltaText(held, at, delta, index)
  {}

  lemma DeltaDelivers(s: State, at: nat, delta: Delta, index: nat)
    ensures var s' := ObserveDelta(s, at, delta);
            && SameCalls(s, s')
            && Delivered(s'.ready, index) == Delivered(s.ready, index) + DeltaText(at in s.held, at, delta, index)
  {
    DeltaAdds(at in s.held, at, delta, index);
    TellDelivers(s, DeltaEvent(at in s.held, at, delta), index);
  }

  lemma ReleaseDelivers(s: State, at: nat, cell: Cell, index: nat)
    requires Matches(s, cell, index)
    ensures var s' := Release(s, at);
            && s'.closed == s.closed && Matches(s', if at == index then Idle else cell, index)
            && Delivered(s'.ready, index) == Delivered(s.ready, index) + if at == index then Owed(cell) else ""
  {
    if at in s.held {
      TellDelivers(s.(held := s.held - {at}), Some(CallDelta(at, None, None, s.held[at].Released())), index);
    } else {
      NothingMore(Delivered(s.ready, index));
    }
  }

  lemma DispatchDelivers(policy: Policy, s: State, frame: Frame, cell: Cell, index: nat)
    requires !s.closed && !Dispatch(policy, s, frame).closed && Matches(s, cell, index)
    ensures var s' := Dispatch(policy, s, frame);
            && Matches(s', if frame.Slot() == index && frame.body.BlockStop? then Idle else cell, index)
            && Delivered(s'.ready, index) == Delivered(s.ready, index) + Emits(cell, frame, index)
  {
    NothingMore(Delivered(s.ready, index));
    match frame.body
    case BlockDelta(Some(delta)) => DeltaDelivers(s, frame.Slot(), delta, index);
    case BlockStop => ReleaseDelivers(s, frame.Slot(), cell, index);
    case _ => OthersDeliverNothing(policy, s, frame, index);
  }

  /** Frames that neither bring a fragment nor end a block deliver no arguments. */
  lemma OthersDeliverNothing(policy: Policy, s: State, frame: Frame, index: nat)
    requires !s.closed && !Dispatch(policy, s, frame).closed && !frame.body.BlockStop?
    requires frame.body.BlockDelta? ==> frame.body.delta.None?
    ensures Dispatch(policy, s, frame).held == s.held
    ensures Delivered(Dispatch(policy, s, frame).ready, index) == Delivered(s.ready, index)
  {
    match frame.body
    case BlockStart(Some(Opened(block, _))) => StartDelivers(policy, s, frame.Slot(), block, index);
    case MessageStop => CloseProceeds(policy, s);
    case _ =>
  }

  lemma ObserveDelivers(policy: Policy, s: State, frame: Frame, cell: Cell, index: nat)
    requires !s.closed && !Observe(policy, s, frame).closed && Matches(s, cell, index)
    requires policy.arguments == [] ==> cell.Idle?
    ensures var s' := Observe(policy, s, frame);
            && Matches(s', NextCell(policy, cell, frame, index), index)
            && Delivered(s'.ready, index) == Delivered(s.ready, index) + Emits(cell, frame, index)
  {
    var limited := if policy.arguments == [] then s else LimitFrame(policy, s, frame);
    LimitFrameMatches(policy, s, frame, cell, index);
    LimitFrameFails(policy, s, frame);
    ReplayKeepsCalls(policy, limited, frame);
    ObserveReplayFails(policy, limited, frame);
    var next := if frame.body.BlockStop? then cell else NextCell(policy, cell, frame, index);
    DispatchDelivers(policy, ObserveReplay(policy, limited, frame), frame, next, index);
  }

  // ---- over runs -----------------------------------------------------------------------------------

  lemma {:induction false} NoLimitsNoCells(policy: Policy, frames: seq<Frame>, index: nat)
    requires policy.arguments == []
    ensures CellAfter(policy, frames, index).Idle?
  {
    if frames != [] {
      NoLimitsNoCells(policy, frames[..|frames| - 1], index);
    }
  }

  lemma OneFrameMore(policy: Policy, frames: seq<Frame>, frame: Frame, index: nat)
    ensures CellAfter(policy, frames + [frame], index)
            == NextCell(policy, CellAfter(policy, frames, index), frame, index)
    ensures DeliveredBy(policy, frames + [frame], index)
         == DeliveredBy(policy, frames, index) + Emits(CellAfter(policy, frames, index), frame, index)
  {
    assert (frames + [frame])[..|frames|] == frames;
  }

  /** The accumulator agrees with its own specification at `index`. */
  predicate Agrees(policy: Policy, x: Session, frames: seq<Frame>, index: nat) {
    && Matches(x.state, CellAfter(policy, frames, index), index)
    && Delivered(x.Out(), index) == DeliveredBy(policy, frames, index)
  }

  lemma DeliveredAfter(
      taken: seq<Event<Stored>>, before: seq<Event<Stored>>, after: seq<Event<Stored>>, more: string, index: nat)
    requires Delivered(after, index) == Delivered(before, index) + more
    ensures Delivered(taken + after, index) == Delivered(taken + before, index) + more
  {
    DeliveredJoins(taken, before, index);
    DeliveredJoins(taken, after, index);
    Regrouped(Delivered(taken, index), Delivered(before, index), more);
  }

  lemma FrameAgrees(policy: Policy, x: Session, frame: Frame, frames: seq<Frame>, index: nat)
    requires !x.state.closed && !Observe(policy, x.state, frame).closed && Agrees(policy, x, frames, index)
    ensures Agrees(policy, x.(state := Observe(policy, x.state, frame)), frames + [frame], index)
  {
    var s' := Observe(policy, x.state, frame);
    if policy.arguments == [] {
      NoLimitsNoCells(policy, frames, index);
    }
    ObserveDelivers(policy, x.state, frame, CellAfter(policy, frames, index), index);
    OneFrameMore(policy, frames, frame, index);
    DeliveredAfter(x.taken, x.state.ready, s'.ready, Emits(CellAfter(policy, frames, index), frame, index), index);
  }

  lemma GarbledAgrees(policy: Policy, x: Session, frames: seq<Frame>, index: nat)
    requires Agrees(policy, x, frames, index)
    ensures Agrees(policy, x.(state := x.state.Push(Error(NotJson))), frames, index)
  {
    TellDelivers(x.state, Some(Error(NotJson)), index);
    NothingMore(Delivered(x.Out(), index));
    DeliveredAfter(x.taken, x.state.ready, x.state.Push(Error(NotJson)).ready, "", index);
  }

  lemma StepAgrees(policy: Policy, x: Session, op: Op, frames: seq<Frame>, index: nat)
    requires !x.state.closed && !Do(policy, x, op).state.closed && Agrees(policy, x, frames, index)
    ensures Agrees(policy, Do(policy, x, op), frames + FrameOf(op), index)
  {
    assert frames + [] == frames;
    match op
    case Taken => TakingKeepsEverything(policy, x);
    case Closing => CloseProceeds(policy, x.state);
    case Failing(why) => FailFails(policy, x.state, why);
    case Observed(Garbled) => GarbledAgrees(policy, x, frames, index);
    case Observed(Decoded(frame)) => FrameAgrees(policy, x, frame, frames, index);
  }

  /**
    At every point of a stream that is still open, what was delivered for a block is what
    concatenating and then judging delivers, and what is held is what has been collected.
   */
  lemma {:induction false} DeliveredIsJudgedWhole(policy: Policy, ops: seq<Op>, index: nat)
    requires !Run(policy, ops).state.closed
    ensures Delivered(Run(policy, ops).Out(), index) == DeliveredBy(policy, FramesOf(ops), index)
    ensures Matches(Run(policy, ops).state, CellAfter(policy, FramesOf(ops), index), index)
  {
    if ops != [] {
      var n := |ops| - 1;
      var x := Run(policy, ops[..n]);
      if x.state.closed {
        StaysClosed(policy, x, ops[n]);
      }
      DeliveredIsJudgedWhole(policy, ops[..n], index);
      StepAgrees(policy, x, ops[n], FramesOf(ops[..n]), index);
    }
  }

  // ---- fragmentation and interleaving do not matter ------------------------------------------------

  predicate Concerns(frame: Frame, index: nat) {
    frame.Slot() == index && (frame.OpensCall() || frame.AddsArguments() || frame.body.BlockStop?)
  }

  /** The frames that concern the arguments of block `index`. */
  function Own(frames: seq<Frame>, index: nat): seq<Frame> {
    if frames == [] then []
    else
      var last := frames[|frames| - 1];
      Own(frames[..|frames| - 1], index) + if Concerns(last, index) then [last] else []
  }

  lemma {:induction false} OnlyOwnFramesMatter(policy: Policy, frames: seq<Frame>, index: nat)
    ensures CellAfter(policy, frames, index) == CellAfter(policy, Own(frames, index), index)
    ensures DeliveredBy(policy, frames, index) == DeliveredBy(policy, Own(frames, index), index)
  {
    if frames != [] {
      var n := |frames| - 1;
      OnlyOwnFramesMatter(policy, frames[..n], index);
      OneFrameMore(policy, Own(frames[..n], index), frames[n], index);
      assert Own(frames[..n], index) + [] == Own(frames[..n], index);
    }
  }

  predicate AllFragments(frames: seq<Frame>, index: nat) {
    forall frame <- frames :: frame.AddsArguments() && frame.Slot() == index
  }

  function Fragments(frames: seq<Frame>): seq<string> {
    if frames == [] then []
    else
      var last := frames[|frames| - 1];
      Fragments(frames[..|frames| - 1]) + if last.AddsArguments() then [last.Added()] else []
  }

  lemma OneFragmentMore(frames: seq<Frame>, frame: Frame)
    requires frame.AddsArguments()
    ensures Concat(Fragments(frames + [frame])) == Concat(Fragments(frames)) + frame.Added()
  {
    assert (frames + [frame])[..|frames|] == frames;
    var texts := Fragments(frames);
    assert (texts + [frame.Added()])[..|texts|] == texts;
  }

  lemma {:induction false} FragmentsCollect(policy: Policy, start: Frame, fragments: seq<Frame>, index: nat)
    requires start.Slot() == index && OpensLimited(policy, start) && AllFragments(fragments, index)
    ensures CellAfter(policy, [start] + fragments, index)
         == Collecting(policy.CallLimit(start.body.opening.value.block).value, Concat(Fragments(fragments)))
    ensures DeliveredBy(policy, [start] + fragments, index) == ""
  {
    if fragments == [] {
      NothingMore([start]);
      OneFrameMore(policy, [], start, index);
    } else {
      var n := |fragments| - 1;
      var init, last := fragments[..n], fragments[n];
      assert last in fragments && fragments == init + [last];
      FragmentsCollect(policy, start, init, index);
      Regrouped([start], init, [last]);
      OneFrameMore(policy, [start] + init, last, index);
      OneFragmentMore(init, last);
    }
  }

  lemma OneCallDelivers(policy: Policy, start: Frame, fragments: seq<Frame>, stop: Frame, index: nat)
    requires start.Slot() == stop.Slot() == index && OpensLimited(policy, start)
    requires AllFragments(fragments, index) && stop.body.BlockStop?
    ensures DeliveredBy(policy, [start] + fragments + [stop], index)
         == Judged(policy.CallLimit(start.body.opening.value.block).value, Concat(Fragments(fragments)))
    ensures CellAfter(policy, [start] + fragments + [stop], index) == Idle
  {
    FragmentsCollect(policy, start, fragments, index);
    OneFrameMore(policy, [start] + fragments, stop, index);
    NothingMore(Owed(CellAfter(policy, [start] + fragments, index)));
  }

  // ---- a stream that ends before its call does -----------------------------------------------------

  function OwedBelow(cell: Cell, index: nat, end: nat): string {
    if index < end then Owed(cell) else ""
  }

  /** `s'` is `s` with what `index` owed released, when it lies below `end`. */
  predicate ReleasedTo(s: State, s': State, cell: Cell, index: nat, end: nat) {
    && Matches(s', if index < end then Idle else cell, index)
    && Delivered(s'.ready, index) == Delivered(s.ready, index) + OwedBelow(cell, index, end)
  }

  lemma ReleasedFurther(s: State, before: State, cell: Cell, index: nat, at: nat)
    requires ReleasedTo(s, before, cell, index, at)
    ensures ReleasedTo(s, Release(before, at), cell, index, at + 1)
  {
    ReleaseDelivers(before, at, if index < at then Idle else cell, index);
    NothingMore(Delivered(s.ready, index));
    NothingMore(Delivered(before.ready, index));
  }

  lemma ReleaseBelowDelivers(s: State, end: nat, cell: Cell, index: nat)
    requires Matches(s, cell, index)
    ensures ReleasedTo(s, ReleaseBelow(s, end), cell, index, end)
  {
    var released := (t: State, n: nat) => ReleasedTo(s, t, cell, index, n);
    NothingMore(Delivered(s.ready, index));
    forall t: State, n: nat | released(t, n) ensures released(Release(t, n), n + 1) {
      ReleasedFurther(s, t, cell, index, n);
    }
    ReleaseInduction(s, end, released);
  }

  /** What each release keeps, releasing them all keeps. */
  lemma {:induction false} ReleaseInduction(s: State, end: nat, released: (State, nat) -> bool)
    requires released(s, 0)
    requires forall t: State, n: nat :: released(t, n) ==> released(Release(t, n), n + 1)
    ensures released(ReleaseBelow(s, end), end)
  {
    if end != 0 {
      ReleaseInduction(s, end - 1, released);
    }
  }

  lemma QuietPush(s: State, event: Event<Stored>, index: nat)
    requires !event.CallDelta?
    ensures Delivered(s.Push(event).ready, index) == Delivered(s.ready, index)
  {
    QuietTell(s, Some(event), index);
  }

  lemma FailDelivers(policy: Policy, s: State, why: Trouble, index: nat)
    ensures Cleared(policy, s.Fail(policy, why))
            || Delivered(s.Fail(policy, why).ready, index) == Delivered(s.ready, index)
  {
    QuietPush(s, Error(why), index);
  }

  lemma ConcludeDelivers(s: State, index: nat)
    ensures Delivered(Conclude(s).ready, index) == Delivered(s.ready, index)
  {
    var usage := Accounting(s.tokens);
    QuietPush(s, Spent(usage), index);
    var told := if 0 < Saturated(usage.prompt, usage.completion) then s.Push(Spent(usage)) else s;
    QuietPush(told, Finished(s.finish.Or(Stop, reason => reason)), index);
  }

  lemma DeliverDelivers(policy: Policy, s: State, blocks: seq<Stored>, index: nat)
    requires s.closed
    ensures Cleared(policy, Deliver(policy, s, blocks))
            || Delivered(Deliver(policy, s, blocks).ready, index) == Delivered(s.ready, index)
  {
    if s.void || !HasThinking(blocks) {
      ConcludeDelivers(s, index);
    } else if HasUnsigned(blocks) {
      FailDelivers(policy, s, Unsigned, index);
    } else if policy.limits.Some? && policy.limits.value.eventBytes < policy.replaySize(blocks) {
      FailDelivers(policy, s, ReplayTooLarge, index);
    } else {
      QuietPush(s, AssistantReplay(blocks), index);
      ConcludeDelivers(s.Push(AssistantReplay(blocks)), index);
    }
  }

  lemma CloseDelivers(policy: Policy, s: State, cell: Cell, index: nat)
    requires !s.closed && Matches(s, cell, index) && index <= U32_MAX
    ensures Cleared(policy, Close(policy, s))
            || Delivered(Close(policy, s).ready, index) == Delivered(s.ready, index) + Owed(cell)
  {
    ReleaseBelowDelivers(s, U32_MAX + 1, cell, index);
    DeliverDelivers(policy, Released(s), BlocksOf(s), index);
  }

  /**
    A stream that closes, either way, while a call is still open leaves nothing behind: what is held
    is released, judged as a whole, before the end. The one exception is exact: under response limits,
    thinking that cannot be replayed fails the close, which replaces everything not yet taken.
   */
  lemma ClosingReleasesWhatIsHeld(policy: Policy, ops: seq<Op>, end: Op, index: nat)
    requires !Run(policy, ops).state.closed && Ends(policy, Run(policy, ops).state, end) && index <= U32_MAX
    ensures var x', frames := Run(policy, ops + [end]), FramesOf(ops);
            && (policy.limits.Some? ==> (Cleared(policy, x'.state) <==> Withheld(policy, Run(policy, ops).state)))
            && (policy.limits.None? || !Withheld(policy, Run(policy, ops).state) ==>
                  Delivered(x'.Out(), index)
                    == DeliveredBy(policy, frames, index) + Owed(CellAfter(policy, frames, index)))
  {
    var x, cell := Run(policy, ops), CellAfter(policy, FramesOf(ops), index);
    EitherWayCloses(policy, ops, end);
    DeliveredIsJudgedWhole(policy, ops, index);
    OpenHasNotFinished(policy, ops);
    FinishedParts(x.taken, x.state.ready);
    CloseFinishes(policy, x.state);
    CloseDelivers(policy, x.state, cell, index);
    if !Cleared(policy, Close(policy, x.state)) {
      DeliveredAfter(x.taken, x.state.ready, Close(policy, x.state).ready, Owed(cell), index);
    }
  }

  // ---- every stream that finished ------------------------------------------------------------------

  lemma {:induction false} ErrorsDeliverNothing(events: seq<Event<Stored>>, index: nat)
    requires AllErrors(events)
    ensures Delivered(events, index) == ""
  {
    if events != [] {
      assert events[|events| - 1] in events;
      ErrorsDeliverNothing(events[..|events| - 1], index);
    }
  }

  lemma ErrorsAfterDeliver(first: seq<Event<Stored>>, out: seq<Event<Stored>>, index: nat)
    requires first <= out && AllErrors(out[|first|..])
    ensures Delivered(out, index) == Delivered(first, index)
  {
    var more := out[|first|..];
    assert out == first + more;
    DeliveredJoins(first, more, index);
    ErrorsDeliverNothing(more, index);
    NothingMore(Delivered(first, index));
  }

  /**
    Over every run that gave `Finished`, however it was closed and driven on: the argument text the
    reader has for a block is that of the frames observed while the stream was open, with what was
    still held judged as a whole.
   */
  lemma FinishedDelivers(policy: Policy, ops: seq<Op>, index: nat)
    requires HasFinished(Run(policy, ops).Out()) && index <= U32_MAX
    ensures var frames := FramesOf(OpenPart(policy, ops));
            Delivered(Run(policy, ops).Out(), index)
              == DeliveredBy(policy, frames, index) + Owed(CellAfter(policy, frames, index))
  {
    var k := FinishedRun(policy, ops);
    Recut(ops, k);
    ClosingReleasesWhatIsHeld(policy, ops[..k], ops[k], index);
    ErrorsAfterDeliver(Run(policy, ops[..k + 1]).Out(), Run(policy, ops).Out(), index);
  }

  /**
    A limited call opened once, in a stream that is still open or that finished: whatever the
    fragments and whatever else is interleaved with them, what the reader has is the whole
    concatenation when it is within the limit, and the oversized marker when it is not. In an open
    stream the call must have stopped; a finished one owes nothing, stopped or not.
   */
  lemma OneCallIsJudgedWhole(
      policy: Policy, ops: seq<Op>, start: Frame, fragments: seq<Frame>, stops: seq<Frame>, index: nat)
    requires HasFinished(Run(policy, ops).Out()) || (!Run(policy, ops).state.closed && stops != [])
    requires Own(FramesOf(OpenPart(policy, ops)), index) == [start] + fragments + stops
    requires start.Slot() == index && OpensLimited(policy, start) && AllFragments(fragments, index)
    requires stops == [] || (|stops| == 1 && stops[0].Slot() == index && stops[0].body.BlockStop?)
    ensures Delivered(Run(policy, ops).Out(), index)
         == Judged(policy.CallLimit(start.body.opening.value.block).value, Concat(Fragments(fragments)))
  {
    var frames := FramesOf(OpenPart(policy, ops));
    OnlyOwnFramesMatter(policy, frames, index);
    if stops == [] {
      NothingMore([start] + fragments);
      FragmentsCollect(policy, start, fragments, index);
      NothingMore(Owed(CellAfter(policy, frames, index)));
    } else {
      assert stops == [stops[0]];
      OneCallDelivers(policy, start, fragments, stops[0], index);
      NothingMore(DeliveredBy(policy, frames, index));
    }
    if HasFinished(Run(policy, ops).Out()) {
      FinishedDelivers(policy, ops, index);
    } else {
      DeliveredIsJudgedWhole(policy, ops, index);
    }
  }
}
