/** The input of a replayed tool call: the whole of its arguments, parsed once. */
module ReplayInput {
  import opened Wrappers
  import opened Messages
  import opened Stream
  import opened AnthropicStream
  import opened AnthropicStreamProofs
  import opened StreamEndings
  import opened HeldArguments
  import opened SignedReplay

  // ---- one block, on its own -----------------------------------------------------------------------

  /**
    What is collected, what is buffered and, once the block has started, what input it has, from the
    block's own frames.
   */
  datatype Track = Track(cell: Cell, buffer: Option<string>, input: Option<Option<Json>>)

  const UNSEEN := Track(Idle, None, None)

  function Buffer(buffer: Option<string>): string {
    if buffer.None? then "" else buffer.value
  }

  function AddedText(frame: Frame): Option<string> {
    if frame.AddsArguments() then frame.body.delta.value.text else None
  }

  function NextBuffer(next: Cell, buffer: Option<string>, frame: Frame): Option<string> {
    if AddedText(frame).Some? then if next.Over() then None else Some(Buffer(buffer) + AddedText(frame).value)
    else if frame.body.BlockStop? then None
    else buffer
  }

  function NextInput(
      policy: Policy, buffer: Option<string>, input: Option<Option<Json>>, frame: Frame): Option<Option<Json>> {
    match frame.body
    case BlockStart(Some(Opened(block, _))) => Some(block.input)
    case BlockStop => if input.None? || buffer.None? then input else Some(policy.Input(buffer.value))
    case _ => input
  }

  function NextTrack(policy: Policy, track: Track, frame: Frame, index: nat): Track {
    if frame.Slot() != index then track
    else
      var next := NextCell(policy, track.cell, frame, index);
      Track(next, NextBuffer(next, track.buffer, frame), NextInput(policy, track.buffer, track.input, frame))
  }

  function TrackAfter(policy: Policy, frames: seq<Frame>, index: nat): Track {
    if frames == [] then UNSEEN
    else NextTrack(policy, TrackAfter(policy, frames[..|frames| - 1], index), frames[|frames| - 1], index)
  }

  // ---- the accumulator against it ------------------------------------------------------------------

  predicate Buffers(s: State, buffer: Option<string>, index: nat) {
    buffer == if index in s.arguments then Some(s.arguments[index]) else None
  }

  predicate HasInput(s: State, input: Option<Option<Json>>, index: nat) {
    if input.None? then index !in s.blocks else index in s.blocks && s.blocks[index].input == input.value
  }

  predicate Tracks(s: State, track: Track, index: nat) {
    && Matches(s, track.cell, index) && Buffers(s, track.buffer, index) && HasInput(s, track.input, index)
    && (track.cell.Over() ==> track.buffer.None?)
  }

  /** What is still buffered once the argument limits have seen the frame. */
  function Judging(next: Cell, buffer: Option<string>, frame: Frame): Option<string> {
    if frame.AddsArguments() && next.Over() then None else buffer
  }

  lemma LimitFrameBuffers(policy: Policy, s: State, frame: Frame, track: Track, index: nat)
    requires !s.closed && Tracks(s, track, index)
    ensures var s' := LimitFrame(policy, s, frame);
            s'.closed
            || (&& HasInput(s', track.input, index)
                && Buffers(s', if frame.Slot() == index
                               then Judging(NextCell(policy, track.cell, frame, index), track.buffer, frame)
                               else track.buffer, index))
  {}

  /** The replay's own step on a block, when the argument limits have seen the frame. */
  lemma AbsorbBuffers(
      policy: Policy, s: State, frame: Frame, next: Cell, buffer: Option<string>, input: Option<Option<Json>>,
      index: nat)
    requires frame.body.BlockDelta? && frame.body.delta.Some? && Matches(s, next, index)
    requires HasInput(s, input, index)
    requires Buffers(s, if frame.Slot() == index then Judging(next, buffer, frame) else buffer, index)
    ensures var s' := AbsorbDelta(policy, s, frame.Slot(), frame.body.delta.value);
            s'.closed
            || (&& HasInput(s', input, index)
                && Buffers(s', if frame.Slot() != index then buffer
                               else NextBuffer(next, Judging(next, buffer, frame), frame), index))
  {}

  lemma SealBuffers(policy: Policy, s: State, at: nat, buffer: Option<string>, input: Option<Option<Json>>, index: nat)
    requires HasInput(s, input, index) && Buffers(s, buffer, index)
    ensures var s' := SealBlock(policy, s, at);
            s'.closed || s.closed
            || (if at == index then
                  && Buffers(s', None, index)
                  && HasInput(s', if input.None? || buffer.None? then input else Some(policy.Input(buffer.value)),
                              index)
                else Buffers(s', buffer, index) && HasInput(s', input, index))
  {}

  lemma StoreBuffers(
      policy: Policy, s: State, at: nat, opening: Opening, buffer: Option<string>, input: Option<Option<Json>>,
      index: nat)
    requires HasInput(s, input, index) && Buffers(s, buffer, index)
    ensures var s' := StoreBlock(policy, s, at, opening);
            s'.closed || s.closed
            || (&& opening.Opened? && Buffers(s', buffer, index)
                && HasInput(s', if at == index then Some(opening.block.input) else input, index))
  {}

  /** What the replay's step leaves buffered and as input. */
  predicate Kept(policy: Policy, s: State, track: Track, frame: Frame, index: nat) {
    var after := NextTrack(policy, track, frame, index);
    Buffers(s, after.buffer, index) && HasInput(s, after.input, index)
  }

  /** Where a block stands between the argument limits and the replay's own step. */
  predicate Limited(policy: Policy, s: State, track: Track, frame: Frame, index: nat) {
    var next := NextCell(policy, track.cell, frame, index);
    && !s.closed && (track.cell.Over() ==> track.buffer.None?)
    && Matches(s, if frame.body.BlockStop? then track.cell else next, index) && HasInput(s, track.input, index)
    && Buffers(s, if frame.Slot() == index then Judging(next, track.buffer, frame) else track.buffer, index)
  }

  lemma StartKept(policy: Policy, s: State, frame: Frame, track: Track, index: nat)
    requires Limited(policy, s, track, frame, index) && frame.body.BlockStart? && frame.body.opening.Some?
    ensures var s' := StoreBlock(policy, s, frame.Slot(), frame.body.opening.value);
            s'.closed || Kept(policy, s', track, frame, index)
  {
    StoreBuffers(policy, s, frame.Slot(), frame.body.opening.value, track.buffer, track.input, index);
  }

  lemma DeltaKept(policy: Policy, s: State, frame: Frame, track: Track, index: nat)
    requires Limited(policy, s, track, frame, index) && frame.body.BlockDelta? && frame.body.delta.Some?
    ensures var s' := AbsorbDelta(policy, s, frame.Slot(), frame.body.delta.value);
            s'.closed || Kept(policy, s', track, frame, index)
  {
    AbsorbBuffers(policy, s, frame, NextCell(policy, track.cell, frame, index), track.buffer, track.input, index);
  }

  lemma StopKept(policy: Policy, s: State, frame: Frame, track: Track, index: nat)
    requires Limited(policy, s, track, frame, index) && frame.body.BlockStop?
    ensures var s' := SealBlock(policy, s, frame.Slot());
            s'.closed || Kept(policy, s', track, frame, index)
  {
    SealBuffers(policy, s, frame.Slot(), track.buffer, track.input, index);
  }

  lemma OtherKept(policy: Policy, s: State, frame: Frame, track: Track, index: nat)
    requires Limited(policy, s, track, frame, index) && !frame.body.BlockStop?
    requires frame.body.BlockStart? ==> frame.body.opening.None?
    requires frame.body.BlockDelta? ==> frame.body.delta.None?
    ensures Kept(policy, s, track, frame, index)
  {}

  lemma ReplayKeeps(policy: Policy, s: State, frame: Frame, track: Track, index: nat)
    requires Limited(policy, s, track, frame, index)
    ensures var s' := ObserveReplay(policy, s, frame);
            s'.closed || Kept(policy, s', track, frame, index)
  {
    match frame.body
    case BlockStart(Some(_)) => StartKept(policy, s, frame, track, index);
    case BlockDelta(Some(_)) => DeltaKept(policy, s, frame, track, index);
    case BlockStop => StopKept(policy, s, frame, track, index);
    case _ => OtherKept(policy, s, frame, track, index);
  }

  lemma DispatchKeepsReplay(policy: Policy, s: State, frame: Frame)
    requires !s.closed
    ensures var s' := Dispatch(policy, s, frame);
            s'.closed || (s'.arguments == s.arguments && s'.blocks == s.blocks)
  {
    DispatchKeepsBlocks(policy, s, frame);
    match frame.body
    case BlockStart(Some(Opened(block, _))) => StartKeepsBuffers(policy, s, frame.Slot(), block);
    case BlockDelta(Some(delta)) => DeltaKeepsBuffers(s, frame.Slot(), delta);
    case MessageStop => CloseProceeds(policy, s);
    case _ =>
  }

  function AfterLimits(policy: Policy, s: State, frame: Frame): State {
    if policy.arguments == [] then s else LimitFrame(policy, s, frame)
  }

  lemma LimitsTrack(policy: Policy, s: State, frame: Frame, track: Track, index: nat)
    requires !s.closed && Tracks(s, track, index) && (policy.arguments == [] ==> track.cell.Idle?)
    ensures var s' := AfterLimits(policy, s, frame);
            s'.closed || Limited(policy, s', track, frame, index)
  {
    if policy.arguments != [] {
      LimitFrameMatches(policy, s, frame, track.cell, index);
      LimitFrameBuffers(policy, s, frame, track, index);
    }
  }

  lemma ObserveTracks(policy: Policy, s: State, frame: Frame, track: Track, index: nat)
    requires !s.closed && !Observe(policy, s, frame).closed && Tracks(s, track, index)
    requires policy.arguments == [] ==> track.cell.Idle?
    ensures Tracks(Observe(policy, s, frame), NextTrack(policy, track, frame, index), index)
  {
    var limited := AfterLimits(policy, s, frame);
    LimitsTrack(policy, s, frame, track, index);
    ReplayKeeps(policy, limited, frame, track, index);
    DispatchKeepsReplay(policy, ObserveReplay(policy, limited, frame), frame);
    ObserveDelivers(policy, s, frame, track.cell, index);
  }

  lemma OneTrackMore(policy: Policy, frames: seq<Frame>, frame: Frame, index: nat)
    ensures TrackAfter(policy, frames + [frame], index)
         == NextTrack(policy, TrackAfter(policy, frames, index), frame, index)
  {
    assert (frames + [frame])[..|frames|] == frames;
  }

  lemma {:induction false} TrackHasItsCell(policy: Policy, frames: seq<Frame>, index: nat)
    ensures TrackAfter(policy, frames, index).cell == CellAfter(policy, frames, index)
  {
    if frames != [] {
      TrackHasItsCell(policy, frames[..|frames| - 1], index);
    }
  }

  /** At every point of an open stream a block is what its own frames make it. */
  lemma {:induction false} BlocksFollowTheirFrames(policy: Policy, ops: seq<Op>, index: nat)
    requires !Run(policy, ops).state.closed
    ensures Tracks(Run(policy, ops).state, TrackAfter(policy, FramesOf(ops), index), index)
  {
    if ops != [] {
      var n := |ops| - 1;
      var x, op, frames := Run(policy, ops[..n]), ops[n], FramesOf(ops[..n]);
      if x.state.closed {
        StaysClosed(policy, x, op);
      }
      BlocksFollowTheirFrames(policy, ops[..n], index);
      match op
      case Observed(Decoded(frame)) =>
        TrackHasItsCell(policy, frames, index);
        if policy.arguments == [] {
          NoLimitsNoCells(policy, frames, index);
        }
        ObserveTracks(policy, x.state, frame, TrackAfter(policy, frames, index), index);
        OneTrackMore(policy, frames, frame, index);
      case Closing => CloseProceeds(policy, x.state);
      case Failing(why) => FailFails(policy, x.state, why);
      case Taken => assert frames + [] == frames;
      case Observed(Garbled) => assert frames + [] == frames;
    }
  }

  // ---- one call --------------------------------------------------------------------------------------

  /** Whether the frame starts or stops block `index`, or brings arguments for it. */
  predicate Touches(frame: Frame, index: nat) {
    && frame.Slot() == index
    && (|| (frame.body.BlockStart? && frame.body.opening.Some? && frame.body.opening.value.Opened?)
        || frame.AddsArguments() || frame.body.BlockStop?)
  }

  /** The frames that make the input of block `index`. */
  function Mine(frames: seq<Frame>, index: nat): seq<Frame> {
    if frames == [] then []
    else
      var last := frames[|frames| - 1];
      Mine(frames[..|frames| - 1], index) + if Touches(last, index) then [last] else []
  }

  lemma {:induction false} OnlyMineMatter(policy: Policy, frames: seq<Frame>, index: nat)
    ensures TrackAfter(policy, frames, index) == TrackAfter(policy, Mine(frames, index), index)
  {
    if frames != [] {
      var n := |frames| - 1;
      OnlyMineMatter(policy, frames[..n], index);
      OneTrackMore(policy, Mine(frames[..n], index), frames[n], index);
      NothingMore(Mine(frames[..n], index));
    }
  }

  predicate AllTexts(fragments: seq<Frame>, index: nat) {
    forall frame <- fragments :: frame.Slot() == index && AddedText(frame).Some?
  }

  /** Whether the call is within its tool's limit, or its tool has none. */
  predicate Within(policy: Policy, block: Stored, text: string) {
    policy.CallLimit(block).None? || |text| <= policy.CallLimit(block).value
  }

  lemma {:induction false} PrefixWithin(policy: Policy, block: Stored, fragments: seq<Frame>, n: nat)
    requires n <= |fragments| && Within(policy, block, Concat(Fragments(fragments)))
    requires forall frame <- fragments :: frame.AddsArguments()
    ensures Within(policy, block, Concat(Fragments(fragments[..n])))
    decreases |fragments|
  {
    if n == |fragments| {
      assert fragments[..n] == fragments;
    } else {
      var init, last := fragments[..|fragments| - 1], fragments[|fragments| - 1];
      assert last in fragments && fragments == init + [last] && fragments[..n] == init[..n];
      OneFragmentMore(init, last);
      PrefixWithin(policy, block, init, n);
    }
  }

  /** A call that has received `text` so far, in at least one fragment or in none. */
  function Filled(policy: Policy, block: Stored, text: string, any: bool): Track {
    var limit := policy.CallLimit(block);
    Track(if limit.None? then Idle else Collecting(limit.value, text), if any then Some(text) else None,
          Some(block.input))
  }

  lemma OneMoreFills(policy: Policy, block: Stored, text: string, any: bool, frame: Frame, index: nat)
    requires frame.Slot() == index && AddedText(frame).Some? && (!any ==> text == "")
    requires Within(policy, block, text + frame.Added())
    ensures NextTrack(policy, Filled(policy, block, text, any), frame, index)
         == Filled(policy, block, text + frame.Added(), true)
  {}

  lemma {:induction false} FragmentsBuffer(policy: Policy, start: Frame, fragments: seq<Frame>, index: nat)
    requires start.Slot() == index && start.OpensCall() && AllTexts(fragments, index)
    requires Within(policy, start.body.opening.value.block, Concat(Fragments(fragments)))
    ensures TrackAfter(policy, [start] + fragments, index)
         == Filled(policy, start.body.opening.value.block, Concat(Fragments(fragments)), fragments != [])
  {
    var block := start.body.opening.value.block;
    if fragments == [] {
      NothingMore([start]);
      OneTrackMore(policy, [], start, index);
    } else {
      var n := |fragments| - 1;
      var init, last := fragments[..n], fragments[n];
      assert last in fragments && fragments == init + [last];
      PrefixWithin(policy, block, fragments, n);
      FragmentsBuffer(policy, start, init, index);
      Regrouped([start], init, [last]);
      OneTrackMore(policy, [start] + init, last, index);
      OneFragmentMore(init, last);
      OneMoreFills(policy, block, Concat(Fragments(init)), init != [], last, index);
    }
  }

  /** The arguments of a call, parsed; blank text is a call without arguments. */
  function Parsed(policy: Policy, text: string): Option<Json> {
    if policy.blank(text) then policy.parse("{}") else policy.parse(text)
  }

  /**
    A tool call opened once and stopped, within its limit, while the stream was open: whatever the
    fragments and whatever is interleaved with them, its block has as input the parsed whole of its
    arguments, or what it was opened with when none arrived. A signed replay is made of these blocks.
   */
  lemma ReplayedInputIsTheWhole(
      policy: Policy, ops: seq<Op>, start: Frame, fragments: seq<Frame>, stop: Frame, index: nat)
    requires Mine(FramesOf(OpenPart(policy, ops)), index) == [start] + fragments + [stop]
    requires start.Slot() == stop.Slot() == index && start.OpensCall() && stop.body.BlockStop?
    requires AllTexts(fragments, index)
    requires Within(policy, start.body.opening.value.block, Concat(Fragments(fragments)))
    ensures var s := Run(policy, OpenPart(policy, ops)).state;
            && index in s.blocks
            && s.blocks[index].input
            == (if fragments == [] then start.body.opening.value.block.input
                else Parsed(policy, Concat(Fragments(fragments))))
            && (forall blocks :: AssistantReplay(blocks) in Run(policy, ops).Out() ==> blocks == BlocksOf(s))
  {
    OpenPartIsOpen(policy, ops);
    var open := OpenPart(policy, ops);
    BlocksFollowTheirFrames(policy, open, index);
    OnlyMineMatter(policy, FramesOf(open), index);
    FragmentsBuffer(policy, start, fragments, index);
    OneTrackMore(policy, [start] + fragments, stop, index);
    forall blocks | AssistantReplay(blocks) in Run(policy, ops).Out()
      ensures blocks == BlocksOf(Run(policy, open).state)
    {
      ReplayMeansNoOverflow(policy, ops, blocks);
    }
  }
}
