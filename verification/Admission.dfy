/** Which responses are let through: a stream stays open exactly while its frames obey the rules. */
module Admission {
  import opened Wrappers
  import opened Stream
  import opened AnthropicStream
  import opened AnthropicStreamProofs
  import opened StreamEndings
  import opened ReplayInput

  // ---- what has come so far ----------------------------------------------------------------------------

  /** The bytes a frame adds to what is kept. */
  function Weight(frame: Frame): nat {
    match frame.body
    case BlockStart(Some(opening)) => opening.size
    case BlockDelta(Some(Fragment(_, Some(text)))) => |text|
    case _ => 0
  }

  function Bytes(frames: seq<Frame>): nat {
    if frames == [] then 0 else Bytes(frames[..|frames| - 1]) + Weight(frames[|frames| - 1])
  }

  /** The blocks started. */
  function Started(frames: seq<Frame>): set<nat> {
    if frames == [] then {}
    else
      var last := frames[|frames| - 1];
      Started(frames[..|frames| - 1]) +
      if last.body.BlockStart? && last.body.opening.Some? then {last.Slot()} else {}
  }

  /** The blocks opened as tool calls. */
  function Called(frames: seq<Frame>): set<nat> {
    if frames == [] then {}
    else
      var last := frames[|frames| - 1];
      Called(frames[..|frames| - 1]) + if last.OpensCall() then {last.Slot()} else {}
  }

  // ---- the rules of one frame ----------------------------------------------------------------------------

  /** What the caller's response budgets ask, when there are any. */
  predicate WithinBudgets(policy: Policy, frames: seq<Frame>, frame: Frame) {
    policy.limits.Some? ==>
      && frame.size <= policy.limits.value.eventBytes
      && !frame.index.NotANumber? && (frame.index.At? ==> frame.index.n < policy.limits.value.toolSlots)
      && (frame.body.BlockStart? ==> |Started(frames)| < policy.limits.value.toolSlots)
      && Bytes(frames) + Weight(frame) <= policy.limits.value.eventBytes
  }

  /** Under argument limits, arguments come only for a call that was opened. */
  predicate InTurn(policy: Policy, frames: seq<Frame>, frame: Frame) {
    policy.arguments != [] && frame.AddsArguments() ==> frame.Slot() in Called(frames)
  }

  /** What can be kept for the replay: whole blocks, few enough, within one record, with arguments that parse. */
  predicate Keepable(policy: Policy, frames: seq<Frame>, frame: Frame) {
    && Bytes(frames) + Weight(frame) <= 4 * 1024 * 1024
    && (match frame.body
        case BlockStart(Some(opening)) => opening.Opened? && |Started(frames)| < 256
        case BlockStop =>
          var buffer := TrackAfter(policy, frames, frame.Slot()).buffer;
          buffer.Some? ==> Parsed(policy, buffer.value).Some?
        case _ => true)
  }

  /** The frame is not itself an end, and under response limits a call it opens can be named. */
  predicate GoesOn(policy: Policy, frame: Frame) {
    && !frame.body.MessageStop? && !frame.body.ErrorFrame?
    && (policy.limits.Some? && frame.OpensCall() ==>
          var call := frame.body.opening.value.block;
          call.id != "" && call.name.Some? && ValidName(call.name.value))
  }

  predicate Admissible(policy: Policy, frames: seq<Frame>, frame: Frame) {
    && WithinBudgets(policy, frames, frame) && InTurn(policy, frames, frame)
    && Keepable(policy, frames, frame) && GoesOn(policy, frame)
  }

  predicate AdmissibleStep(policy: Policy, frames: seq<Frame>, op: Op) {
    match op
    case Observed(Decoded(frame)) => Admissible(policy, frames, frame)
    case Observed(Garbled) => policy.limits.None?
    case Taken => true
    case Closing => false
    case Failing(_) => false
  }

  predicate AllAdmissible(policy: Policy, ops: seq<Op>) {
    ops != [] ==>
      var before := ops[..|ops| - 1];
      AllAdmissible(policy, before) && AdmissibleStep(policy, FramesOf(before), ops[|ops| - 1])
  }

  // ---- the accumulator against them ------------------------------------------------------------------------

  /** What an open accumulator knows of its frames. */
  predicate Follows(policy: Policy, s: State, frames: seq<Frame>) {
    && s.bytes == Bytes(frames) && s.blocks.Keys == Started(frames)
    && (policy.arguments != [] ==> s.calls == Called(frames))
  }

  lemma RefusalExactly(policy: Policy, s: State, frames: seq<Frame>, frame: Frame)
    requires Follows(policy, s, frames)
    ensures Refusal(policy, s, frame).None? <==> WithinBudgets(policy, frames, frame)
  {
    assert |s.blocks| == |s.blocks.Keys|;
  }

  lemma LimitExactly(policy: Policy, s: State, frames: seq<Frame>, frame: Frame)
    requires !s.closed && policy.arguments != [] && s.calls == Called(frames)
    ensures var s' := LimitFrame(policy, s, frame);
            && (!s'.closed <==> InTurn(policy, frames, frame))
            && (!s'.closed ==>
                  && s'.bytes == s.bytes && s'.blocks == s.blocks
                  && s'.calls == s.calls + (if frame.OpensCall() then {frame.Slot()} else {})
                  && (frame.body.BlockStop? ==> s'.arguments == s.arguments))
  {}

  lemma StoreOpenExactly(policy: Policy, s: State, index: nat, opening: Opening)
    requires !s.closed
    ensures !StoreBlock(policy, s, index, opening).closed <==>
            opening.Opened? && |s.blocks| < 256 && s.bytes + opening.size <= RECORD_BYTES_MAX
  {}

  lemma StoreStores(policy: Policy, s: State, index: nat, opening: Opening)
    requires !s.closed && !StoreBlock(policy, s, index, opening).closed
    ensures var s' := StoreBlock(policy, s, index, opening);
            && opening.Opened? && s'.bytes == s.bytes + opening.size && s'.calls == s.calls
            && s'.blocks == s.blocks[index := opening.block]
  {}

  lemma StoreExactly(policy: Policy, s: State, index: nat, opening: Opening)
    requires !s.closed
    ensures var s' := StoreBlock(policy, s, index, opening);
            && (!s'.closed <==> opening.Opened? && |s.blocks| < 256 && s.bytes + opening.size <= RECORD_BYTES_MAX)
            && (!s'.closed ==>
                  && s'.bytes == s.bytes + opening.size && s'.calls == s.calls
                  && s'.blocks.Keys == s.blocks.Keys + {index})
  {
    StoreOpenExactly(policy, s, index, opening);
    if !StoreBlock(policy, s, index, opening).closed {
      StoreStores(policy, s, index, opening);
    }
  }

  lemma AbsorbExactly(policy: Policy, s: State, index: nat, delta: Delta)
    requires !s.closed && s.bytes <= RECORD_BYTES_MAX
    ensures var s' := AbsorbDelta(policy, s, index, delta);
            var more := if delta.Fragment? && delta.text.Some? then |delta.text.value| else 0;
            && (!s'.closed <==> s.bytes + more <= RECORD_BYTES_MAX)
            && (!s'.closed ==>
                  s'.bytes == s.bytes + more && s'.blocks.Keys == s.blocks.Keys && s'.calls == s.calls)
  {}

  lemma SealExactly(policy: Policy, s: State, index: nat)
    requires !s.closed
    ensures var s' := SealBlock(policy, s, index);
            && (!s'.closed <==> (index in s.arguments ==> policy.Input(s.arguments[index]).Some?))
            && (!s'.closed ==> s'.bytes == s.bytes && s'.blocks.Keys == s.blocks.Keys && s'.calls == s.calls)
  {}

  /** What the replay's part of a frame asks of the state, and what it leaves. */
  lemma ReplayExactly(policy: Policy, s: State, frame: Frame)
    requires !s.closed && s.bytes <= RECORD_BYTES_MAX
    ensures var s' := ObserveReplay(policy, s, frame);
            && (!s'.closed <==>
                  && s.bytes + Weight(frame) <= RECORD_BYTES_MAX
                  && (match frame.body
                      case BlockStart(Some(opening)) => opening.Opened? && |s.blocks| < 256
                      case BlockStop =>
                        frame.Slot() in s.arguments ==> policy.Input(s.arguments[frame.Slot()]).Some?
                      case _ => true))
            && (!s'.closed ==>
                  && s'.bytes == s.bytes + Weight(frame) && s'.calls == s.calls
                  && s'.blocks.Keys == s.blocks.Keys +
                       if frame.body.BlockStart? && frame.body.opening.Some? then {frame.Slot()} else {})
  {
    match frame.body
    case BlockStart(Some(opening)) => StoreExactly(policy, s, frame.Slot(), opening);
    case BlockDelta(Some(delta)) =>
      AbsorbExactly(policy, s, frame.Slot(), delta);
      BoundedExactly(policy, AbsorbDelta(policy, s, frame.Slot(), delta));
    case BlockStop =>
      SealExactly(policy, s, frame.Slot());
      BoundedExactly(policy, SealBlock(policy, s, frame.Slot()));
    case _ => BoundedExactly(policy, s);
  }

  lemma BoundedExactly(policy: Policy, s: State)
    ensures if s.closed then Bounded(policy, s).closed
            else if s.bytes <= RECORD_BYTES_MAX then Bounded(policy, s) == s
            else Bounded(policy, s).closed
  {}

  lemma StartExactly(policy: Policy, s: State, index: nat, block: Stored)
    requires !s.closed
    ensures var s' := ObserveStart(policy, s, index, block);
            && (s'.closed <==>
                  && policy.limits.Some? && block.kind == ToolUseBlock
                  && !(block.id != "" && block.name.Some? && ValidName(block.name.value)))
            && (!s'.closed ==> s'.bytes == s.bytes && s'.blocks == s.blocks && s'.calls == s.calls)
  {}

  lemma DispatchExactly(policy: Policy, s: State, frame: Frame)
    requires !s.closed
    ensures var s' := Dispatch(policy, s, frame);
            && (!s'.closed <==> GoesOn(policy, frame))
            && (!s'.closed ==> s'.bytes == s.bytes && s'.blocks == s.blocks && s'.calls == s.calls)
  {
    match frame.body
    case BlockStart(Some(Opened(block, _))) => StartExactly(policy, s, frame.Slot(), block);
    case MessageStop => CloseProceeds(policy, s);
    case _ =>
  }

  lemma OneFrameMore(frames: seq<Frame>, frame: Frame)
    ensures Bytes(frames + [frame]) == Bytes(frames) + Weight(frame)
    ensures Started(frames + [frame]) == Started(frames) +
              if frame.body.BlockStart? && frame.body.opening.Some? then {frame.Slot()} else {}
    ensures Called(frames + [frame]) == Called(frames) + if frame.OpensCall() then {frame.Slot()} else {}
  {
    assert (frames + [frame])[..|frames|] == frames;
  }

  /** One frame: the stream stays open exactly when the frame is admissible, and then goes on following. */
  lemma FrameExactly(policy: Policy, s: State, frames: seq<Frame>, frame: Frame)
    requires !s.closed && s.bytes <= RECORD_BYTES_MAX && Follows(policy, s, frames)
    requires Buffers(s, TrackAfter(policy, frames, frame.Slot()).buffer, frame.Slot())
    ensures !Observe(policy, s, frame).closed <==> Admissible(policy, frames, frame)
    ensures !Observe(policy, s, frame).closed ==> Follows(policy, Observe(policy, s, frame), frames + [frame])
  {
    RefusalExactly(policy, s, frames, frame);
    OneFrameMore(frames, frame);
    if Refusal(policy, s, frame).None? {
      LimitedExactly(policy, s, frames, frame);
    }
  }

  lemma LimitedExactly(policy: Policy, s: State, frames: seq<Frame>, frame: Frame)
    requires !s.closed && s.bytes <= RECORD_BYTES_MAX && Follows(policy, s, frames)
    requires Buffers(s, TrackAfter(policy, frames, frame.Slot()).buffer, frame.Slot())
    requires Refusal(policy, s, frame).None?
    ensures !Observe(policy, s, frame).closed <==>
            InTurn(policy, frames, frame) && Keepable(policy, frames, frame) && GoesOn(policy, frame)
    ensures !Observe(policy, s, frame).closed ==>
              var s' := Observe(policy, s, frame);
              && s'.bytes == s.bytes + Weight(frame)
              && s'.blocks.Keys == s.blocks.Keys +
                   (if frame.body.BlockStart? && frame.body.opening.Some? then {frame.Slot()} else {})
              && (policy.arguments != [] ==>
                    s'.calls == s.calls + if frame.OpensCall() then {frame.Slot()} else {})
  {
    var limited := if policy.arguments == [] then s else LimitFrame(policy, s, frame);
    if policy.arguments != [] {
      LimitExactly(policy, s, frames, frame);
    }
    if !limited.closed {
      assert |s.blocks| == |s.blocks.Keys|;
      ReplayExactly(policy, limited, frame);
      var kept := ObserveReplay(policy, limited, frame);
      if !kept.closed {
        DispatchExactly(policy, kept, frame);
      }
    }
  }

  lemma {:induction false} OpenFollows(policy: Policy, ops: seq<Op>)
    requires !Run(policy, ops).state.closed
    ensures Follows(policy, Run(policy, ops).state, FramesOf(ops))
  {
    if ops != [] {
      var n := |ops| - 1;
      var x, op, frames := Run(policy, ops[..n]), ops[n], FramesOf(ops[..n]);
      if x.state.closed {
        StaysClosed(policy, x, op);
      }
      OpenFollows(policy, ops[..n]);
      NothingMore(frames);
      match op
      case Observed(Decoded(frame)) => FrameIsDecided(policy, ops[..n], frame);
      case Closing => CloseProceeds(policy, x.state);
      case Failing(why) => FailFails(policy, x.state, why);
      case Taken =>
      case Observed(Garbled) =>
    }
  }

  lemma FrameIsDecided(policy: Policy, ops: seq<Op>, frame: Frame)
    requires !Run(policy, ops).state.closed && Follows(policy, Run(policy, ops).state, FramesOf(ops))
    ensures var s' := Observe(policy, Run(policy, ops).state, frame);
            && (!s'.closed <==> Admissible(policy, FramesOf(ops), frame))
            && (!s'.closed ==> Follows(policy, s', FramesOf(ops) + [frame]))
  {
    OpenIsInBounds(policy, ops);
    BlocksFollowTheirFrames(policy, ops, frame.Slot());
    FrameExactly(policy, Run(policy, ops).state, FramesOf(ops), frame);
  }

  /**
    Over every run: a stream is open exactly when every step of it was admissible after the ones before.
    So a frame that obeys the rules is never refused, and one that does not always is.
   */
  lemma {:induction false} OpenExactlyWhen(policy: Policy, ops: seq<Op>)
    ensures !Run(policy, ops).state.closed <==> AllAdmissible(policy, ops)
  {
    if ops != [] {
      var n := |ops| - 1;
      var x, op := Run(policy, ops[..n]), ops[n];
      OpenExactlyWhen(policy, ops[..n]);
      if x.state.closed {
        StaysClosed(policy, x, op);
      } else {
        StepExactly(policy, ops[..n], op);
      }
    }
  }

  lemma StepExactly(policy: Policy, ops: seq<Op>, op: Op)
    requires !Run(policy, ops).state.closed
    ensures !Do(policy, Run(policy, ops), op).state.closed <==> AdmissibleStep(policy, FramesOf(ops), op)
  {
    match op
    case Observed(Decoded(frame)) =>
      OpenFollows(policy, ops);
      FrameIsDecided(policy, ops, frame);
    case Closing => CloseProceeds(policy, Run(policy, ops).state);
    case Failing(why) => FailFails(policy, Run(policy, ops).state, why);
    case Taken =>
    case Observed(Garbled) =>
  }

  /**
    A well-behaved response finishes: when every step was admissible, the provider's last frame, within
    the budgets, ends the stream with `Finished`, unless it holds thinking that cannot be replayed.
   */
  lemma AdmissibleResponsesFinish(policy: Policy, ops: seq<Op>, stop: Frame)
    requires AllAdmissible(policy, ops) && stop.body.MessageStop? && WithinBudgets(policy, FramesOf(ops), stop)
    ensures var out := Run(policy, ops + [Observed(Decoded(stop))]).Out();
            if Withheld(policy, Run(policy, ops).state) then !HasFinished(out) else FinishesLast(out)
  {
    var end := Observed(Decoded(stop));
    OpenExactlyWhen(policy, ops);
    OpenFollows(policy, ops);
    RefusalExactly(policy, Run(policy, ops).state, FramesOf(ops), stop);
    OpenIsInBounds(policy, ops);
    OpenHasNotFinished(policy, ops);
    RunJoins(policy, ops, end);
    EitherWayCloses(policy, ops, end);
    ClosingStepFinishes(policy, Run(policy, ops), end);
  }
}
