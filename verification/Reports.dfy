/** What the reader is told of a response besides its arguments and its usage: the text, the thinking, how it ended. */
module Reports {
  import opened Wrappers
  import opened Stream
  import opened AnthropicStream
  import opened AnthropicStreamProofs
  import opened StreamEndings
  import opened ToldReplay

  // ---- text and calls --------------------------------------------------------------------------------

  /** What the frames say, in the order they come. */
  function SaidByFrames(frames: seq<Frame>): Said {
    if frames == [] then NOTHING else SaidByFrames(frames[..|frames| - 1]).Then(Adding(frames[|frames| - 1]))
  }

  lemma SaidByFramesOneMore(frames: seq<Frame>, frame: Frame)
    ensures SaidByFrames(frames + [frame]) == SaidByFrames(frames).Then(Adding(frame))
  {
    assert (frames + [frame])[..|frames|] == frames;
  }

  lemma QueueUntilDispatch(policy: Policy, s: State, frame: Frame)
    requires !s.closed && !Observe(policy, s, frame).closed
    ensures var limited := if policy.arguments == [] then s else LimitFrame(policy, s, frame);
            var kept := ObserveReplay(policy, limited, frame);
            && !kept.closed && kept.ready == s.ready && Observe(policy, s, frame) == Dispatch(policy, kept, frame)
  {
    var limited := if policy.arguments == [] then s else LimitFrame(policy, s, frame);
    LimitSaysNothing(policy, s, frame);
    ObserveReplayFails(policy, limited, frame);
  }

  lemma FrameIsHeard(policy: Policy, x: Session, frame: Frame)
    requires !x.state.closed && !Observe(policy, x.state, frame).closed
    ensures Heard(x.(state := Observe(policy, x.state, frame)).Out()) == Heard(x.Out()).Then(Adding(frame))
  {
    var limited := if policy.arguments == [] then x.state else LimitFrame(policy, x.state, frame);
    QueueUntilDispatch(policy, x.state, frame);
    DispatchSays(policy, ObserveReplay(policy, limited, frame), frame);
    HeardAfter(x.taken, x.state.ready, Observe(policy, x.state, frame).ready, Adding(frame));
  }

  /** Whatever their order: at every point of an open stream the reader was told what its frames say. */
  lemma {:induction false} OpenIsHeard(policy: Policy, ops: seq<Op>)
    requires !Run(policy, ops).state.closed
    ensures Heard(Run(policy, ops).Out()) == SaidByFrames(FramesOf(ops))
  {
    if ops != [] {
      var n := |ops| - 1;
      var x, op, frames := Run(policy, ops[..n]), ops[n], FramesOf(ops[..n]);
      if x.state.closed {
        StaysClosed(policy, x, op);
      }
      OpenIsHeard(policy, ops[..n]);
      StepIsHeard(policy, x, op, frames);
    }
  }

  lemma StepIsHeard(policy: Policy, x: Session, op: Op, frames: seq<Frame>)
    requires !x.state.closed && !Do(policy, x, op).state.closed && Heard(x.Out()) == SaidByFrames(frames)
    ensures Heard(Do(policy, x, op).Out()) == SaidByFrames(frames + FrameOf(op))
  {
    NothingMore(frames);
    match op
    case Observed(Decoded(frame)) =>
      SaidByFramesOneMore(frames, frame);
      FrameIsHeard(policy, x, frame);
    case Closing => CloseProceeds(policy, x.state);
    case Failing(why) => FailFails(policy, x.state, why);
    case Taken => TakingKeepsEverything(policy, x);
    case Observed(Garbled) => GarbledIsSilent(x);
  }

  lemma GarbledIsSilent(x: Session)
    ensures Heard(x.(state := x.state.Push(Error(NotJson))).Out()) == Heard(x.Out())
  {
    HeardNext(x.state.ready, Error(NotJson));
    HeardAfter(x.taken, x.state.ready, x.state.Push(Error(NotJson)).ready, NOTHING);
    ThenRegroups(Heard(x.Out()), NOTHING, NOTHING);
  }

  /** And a run that gave `Finished` told exactly what the frames seen while it was open say. */
  lemma FinishedIsHeard(policy: Policy, ops: seq<Op>)
    requires HasFinished(Run(policy, ops).Out())
    ensures Heard(Run(policy, ops).Out()) == SaidByFrames(FramesOf(OpenPart(policy, ops)))
  {
    var k := FinishedRun(policy, ops);
    Recut(ops, k);
    var x := Run(policy, ops[..k]);
    OpenIsHeard(policy, ops[..k]);
    EitherWayCloses(policy, ops[..k], ops[k]);
    CloseSaysNothing(policy, x.state);
    HeardJoins(x.taken, x.state.ready);
    HeardJoins(x.taken, Close(policy, x.state).ready);
    SilentEnd(Run(policy, ops[..k + 1]).Out(), Run(policy, ops).Out());
  }

  // ---- thinking --------------------------------------------------------------------------------------

  function Thought(event: Event<Stored>): string {
    if event.ReasoningDelta? then event.text else ""
  }

  function Thoughts(events: seq<Event<Stored>>): string {
    if events == [] then "" else Thoughts(events[..|events| - 1]) + Thought(events[|events| - 1])
  }

  /** The thinking a frame brings: that of a thinking block that starts, or a fragment of it. */
  function ThoughtBy(frame: Frame): string {
    match frame.body
    case BlockStart(Some(Opened(block, _))) =>
      if block.kind == ThinkingBlock && block.thinking.Some? then block.thinking.value else ""
    case BlockDelta(Some(Fragment(ThinkingField, Some(text)))) => text
    case _ => ""
  }

  function ThoughtsBy(frames: seq<Frame>): string {
    if frames == [] then "" else ThoughtsBy(frames[..|frames| - 1]) + ThoughtBy(frames[|frames| - 1])
  }

  lemma ThoughtsByOneMore(frames: seq<Frame>, frame: Frame)
    ensures ThoughtsBy(frames + [frame]) == ThoughtsBy(frames) + ThoughtBy(frame)
  {
    assert (frames + [frame])[..|frames|] == frames;
  }

  lemma ThoughtsNext(events: seq<Event<Stored>>, event: Event<Stored>)
    ensures Thoughts(events + [event]) == Thoughts(events) + Thought(event)
  {
    assert (events + [event])[..|events|] == events;
  }

  lemma {:induction false} ThoughtsJoin(a: seq<Event<Stored>>, b: seq<Event<Stored>>)
    ensures Thoughts(a + b) == Thoughts(a) + Thoughts(b)
  {
    if b == [] {
      NothingMore(a);
      NothingMore(Thoughts(a));
    } else {
      var init, last := b[..|b| - 1], b[|b| - 1];
      assert b == init + [last];
      ThoughtsJoin(a, init);
      Regrouped(a, init, [last]);
      ThoughtsNext(a + init, last);
      ThoughtsNext(init, last);
      Regrouped(Thoughts(a), Thoughts(init), Thought(last));
    }
  }

  lemma {:induction false} NoThoughts(events: seq<Event<Stored>>)
    requires forall e <- events :: !e.ReasoningDelta?
    ensures Thoughts(events) == ""
  {
    if events != [] {
      assert events[|events| - 1] in events;
      NoThoughts(events[..|events| - 1]);
    }
  }

  lemma TellThinks(s: State, event: Option<Event<Stored>>)
    ensures Thoughts(s.Tell(event).ready) == Thoughts(s.ready) + if event.None? then "" else Thought(event.value)
  {
    if event.Some? {
      ThoughtsNext(s.ready, event.value);
    } else {
      NothingMore(Thoughts(s.ready));
    }
  }

  lemma StartThinks(policy: Policy, s: State, frame: Frame, block: Stored)
    requires frame.body.BlockStart? && frame.body.opening.Some? && frame.body.opening.value.Opened?
    requires block == frame.body.opening.value.block
    ensures var s' := ObserveStart(policy, s, frame.Slot(), block);
            s'.closed || Thoughts(s'.ready) == Thoughts(s.ready) + ThoughtBy(frame)
  {
    if block.kind == ToolUseBlock {
      NothingMore(Thoughts(s.ready));
      TellThinks(s, Some(CallEvent(frame.Slot(), block)));
    } else {
      var event := if block.kind == TextBlock then Told(block.text, false)
                   else if block.kind == ThinkingBlock then Told(block.thinking, true)
                   else None;
      BlockThinks(block, event);
      TellThinks(s, event);
    }
  }

  lemma BlockThinks(block: Stored, event: Option<Event<Stored>>)
    requires block.kind != ToolUseBlock
    requires event == if block.kind == TextBlock then Told(block.text, false)
                      else if block.kind == ThinkingBlock then Told(block.thinking, true)
                      else None
    ensures (if event.None? then "" else Thought(event.value))
            == if block.kind == ThinkingBlock && block.thinking.Some? then block.thinking.value else ""
  {}

  lemma DispatchThinks(policy: Policy, s: State, frame: Frame)
    requires !s.closed && !Dispatch(policy, s, frame).closed
    ensures Thoughts(Dispatch(policy, s, frame).ready) == Thoughts(s.ready) + ThoughtBy(frame)
  {
    NothingMore(Thoughts(s.ready));
    match frame.body
    case BlockStart(Some(Opened(block, _))) => StartThinks(policy, s, frame, block);
    case BlockDelta(Some(delta)) => DeltaThinks(s, frame, delta);
    case BlockStop => ReleaseThinksNothing(s, frame.Slot());
    case MessageStop => CloseProceeds(policy, s);
    case _ =>
  }

  lemma DeltaThinks(s: State, frame: Frame, delta: Delta)
    requires frame.body == BlockDelta(Some(delta))
    ensures Thoughts(ObserveDelta(s, frame.Slot(), delta).ready) == Thoughts(s.ready) + ThoughtBy(frame)
  {
    DeltaThought(frame.Slot() in s.held, frame, delta);
    TellThinks(s, DeltaEvent(frame.Slot() in s.held, frame.Slot(), delta));
  }

  lemma DeltaThought(held: bool, frame: Frame, delta: Delta)
    requires frame.body == BlockDelta(Some(delta))
    ensures var event := DeltaEvent(held, frame.Slot(), delta);
            (if event.None? then "" else Thought(event.value)) == ThoughtBy(frame)
  {}

  lemma ReleaseThinksNothing(s: State, at: nat)
    ensures Thoughts(Release(s, at).ready) == Thoughts(s.ready)
  {
    NothingMore(Thoughts(s.ready));
    if at in s.held {
      TellThinks(s.(held := s.held - {at}), Some(CallDelta(at, None, None, s.held[at].Released())));
    }
  }

  lemma ThoughtsAfter(taken: seq<Event<Stored>>, before: seq<Event<Stored>>, after: seq<Event<Stored>>, more: string)
    requires Thoughts(after) == Thoughts(before) + more
    ensures Thoughts(taken + after) == Thoughts(taken + before) + more
  {
    ThoughtsJoin(taken, before);
    ThoughtsJoin(taken, after);
    Regrouped(Thoughts(taken), Thoughts(before), more);
  }

  lemma FrameIsThought(policy: Policy, x: Session, frame: Frame)
    requires !x.state.closed && !Observe(policy, x.state, frame).closed
    ensures Thoughts(x.(state := Observe(policy, x.state, frame)).Out()) == Thoughts(x.Out()) + ThoughtBy(frame)
  {
    var limited := if policy.arguments == [] then x.state else LimitFrame(policy, x.state, frame);
    QueueUntilDispatch(policy, x.state, frame);
    DispatchThinks(policy, ObserveReplay(policy, limited, frame), frame);
    ThoughtsAfter(x.taken, x.state.ready, Observe(policy, x.state, frame).ready, ThoughtBy(frame));
  }

  /** At every point of an open stream the reader was given, as reasoning, the thinking of its frames. */
  lemma {:induction false} OpenIsThought(policy: Policy, ops: seq<Op>)
    requires !Run(policy, ops).state.closed
    ensures Thoughts(Run(policy, ops).Out()) == ThoughtsBy(FramesOf(ops))
  {
    if ops != [] {
      var n := |ops| - 1;
      var x, op, frames := Run(policy, ops[..n]), ops[n], FramesOf(ops[..n]);
      if x.state.closed {
        StaysClosed(policy, x, op);
      }
      OpenIsThought(policy, ops[..n]);
      NothingMore(frames);
      match op
      case Observed(Decoded(frame)) =>
        ThoughtsByOneMore(frames, frame);
        FrameIsThought(policy, x, frame);
      case Closing => CloseProceeds(policy, x.state);
      case Failing(why) => FailFails(policy, x.state, why);
      case Taken => TakingKeepsEverything(policy, x);
      case Observed(Garbled) =>
        TellThinks(x.state, Some(Error(NotJson)));
        ThoughtsAfter(x.taken, x.state.ready, x.state.Push(Error(NotJson)).ready, "");
        NothingMore(Thoughts(x.Out()));
    }
  }

  lemma ThoughtlessEnd(a: seq<Event<Stored>>, b: seq<Event<Stored>>)
    requires a <= b && forall e <- b[|a|..] :: !e.ReasoningDelta?
    ensures Thoughts(b) == Thoughts(a)
  {
    assert b == a + b[|a|..];
    ThoughtsJoin(a, b[|a|..]);
    NoThoughts(b[|a|..]);
    NothingMore(Thoughts(a));
  }

  lemma DeliverThinksNothing(policy: Policy, s: State, blocks: seq<Stored>)
    requires s.void || !HasThinking(blocks) || (!HasUnsigned(blocks) && Fits(policy, blocks))
    ensures Thoughts(Deliver(policy, s, blocks).ready) == Thoughts(s.ready)
  {
    var replayed := s.Push(AssistantReplay(blocks));
    ThoughtlessEnd(s.ready, replayed.ready);
    ConcludeThinksNothing(replayed);
    ConcludeThinksNothing(s);
  }

  lemma ConcludeThinksNothing(s: State)
    ensures Thoughts(Conclude(s).ready) == Thoughts(s.ready)
  {
    ThoughtlessEnd(s.ready, Conclude(s).ready);
  }

  lemma CloseThinksNothing(policy: Policy, s: State)
    requires !s.closed && !Withheld(policy, s)
    ensures Thoughts(Close(policy, s).ready) == Thoughts(s.ready)
  {
    ReleaseBelowReleases(s, U32_MAX + 1);
    ReleaseKeepsCounts(s, U32_MAX + 1);
    ThoughtlessEnd(s.ready, Released(s).ready);
    DeliverThinksNothing(policy, Released(s), BlocksOf(s));
  }

  lemma FinishedIsThought(policy: Policy, ops: seq<Op>)
    requires HasFinished(Run(policy, ops).Out())
    ensures Thoughts(Run(policy, ops).Out()) == ThoughtsBy(FramesOf(OpenPart(policy, ops)))
  {
    var k := FinishedRun(policy, ops);
    Recut(ops, k);
    var x := Run(policy, ops[..k]);
    OpenIsThought(policy, ops[..k]);
    EitherWayCloses(policy, ops[..k], ops[k]);
    CloseThinksNothing(policy, x.state);
    ThoughtsJoin(x.taken, x.state.ready);
    ThoughtsJoin(x.taken, Close(policy, x.state).ready);
    ThoughtlessEnd(Run(policy, ops[..k + 1]).Out(), Run(policy, ops).Out());
  }

  // ---- why it ended ----------------------------------------------------------------------------------

  /** The last stop reason the frames give. */
  function LastStop(frames: seq<Frame>): Option<string> {
    if frames == [] then None
    else
      match frames[|frames| - 1].body
      case MessageDelta(_, Some(reason)) => Some(reason)
      case _ => LastStop(frames[..|frames| - 1])
  }

  /** What a stop reason on the wire means; a response that gives none has just stopped. */
  predicate StopMeans(raw: Option<string>, reason: Finish) {
    match reason
    case Stop => raw in {None, Some("end_turn"), Some("stop_sequence")}
    case ToolCalls => raw == Some("tool_use")
    case Length => raw == Some("max_tokens")
    case ContentFilter => raw == Some("refusal")
    case Unknown(text) =>
      raw == Some(text) && text !in {"end_turn", "stop_sequence", "tool_use", "max_tokens", "refusal"}
  }

  /** The reason an accumulator would finish with is that of `raw`. */
  predicate WouldFinish(s: State, raw: Option<string>) {
    if s.finish.None? then raw.None? else StopMeans(raw, s.finish.value)
  }

  lemma ReplayKeepsReason(policy: Policy, s: State, frame: Frame)
    ensures ObserveReplay(policy, s, frame).closed || ObserveReplay(policy, s, frame).finish == s.finish
  {
    match frame.body
    case BlockStart(Some(opening)) => StoreKeepsReason(policy, s, frame.Slot(), opening);
    case BlockDelta(Some(delta)) => AbsorbKeepsReason(policy, s, frame.Slot(), delta);
    case BlockStop => SealKeepsReason(policy, s, frame.Slot());
    case _ =>
  }

  lemma StoreKeepsReason(policy: Policy, s: State, index: nat, opening: Opening)
    ensures StoreBlock(policy, s, index, opening).closed || StoreBlock(policy, s, index, opening).finish == s.finish
  {}

  lemma AbsorbKeepsReason(policy: Policy, s: State, index: nat, delta: Delta)
    ensures AbsorbDelta(policy, s, index, delta).closed || AbsorbDelta(policy, s, index, delta).finish == s.finish
  {}

  lemma SealKeepsReason(policy: Policy, s: State, index: nat)
    ensures SealBlock(policy, s, index).closed || SealBlock(policy, s, index).finish == s.finish
  {}

  lemma LimitKeepsReason(policy: Policy, s: State, frame: Frame)
    ensures LimitFrame(policy, s, frame).closed || LimitFrame(policy, s, frame).finish == s.finish
  {}

  lemma DispatchReasons(policy: Policy, s: State, frame: Frame, frames: seq<Frame>)
    requires !s.closed && !Dispatch(policy, s, frame).closed && WouldFinish(s, LastStop(frames))
    ensures WouldFinish(Dispatch(policy, s, frame), LastStop(frames + [frame]))
  {
    assert (frames + [frame])[..|frames|] == frames;
    match frame.body
    case BlockStart(Some(Opened(block, _))) => StartKeepsReason(policy, s, frame.Slot(), block);
    case MessageDelta(output, stop) => TailReasons(s, output, stop, LastStop(frames));
    case MessageStop => CloseProceeds(policy, s);
    case _ =>
  }

  lemma StartKeepsReason(policy: Policy, s: State, index: nat, block: Stored)
    ensures ObserveStart(policy, s, index, block).closed || ObserveStart(policy, s, index, block).finish == s.finish
  {}

  lemma TailReasons(s: State, output: Option<nat>, stop: Option<string>, raw: Option<string>)
    requires WouldFinish(s, raw)
    ensures WouldFinish(ObserveTail(s, output, stop), if stop.Some? then stop else raw)
  {}

  lemma ObserveReasons(policy: Policy, s: State, frame: Frame, frames: seq<Frame>)
    requires !s.closed && !Observe(policy, s, frame).closed && WouldFinish(s, LastStop(frames))
    ensures WouldFinish(Observe(policy, s, frame), LastStop(frames + [frame]))
  {
    var limited := if policy.arguments == [] then s else LimitFrame(policy, s, frame);
    LimitKeepsReason(policy, s, frame);
    ReplayKeepsReason(policy, limited, frame);
    DispatchReasons(policy, ObserveReplay(policy, limited, frame), frame, frames);
  }

  lemma {:induction false} OpenReasons(policy: Policy, ops: seq<Op>)
    requires !Run(policy, ops).state.closed
    ensures WouldFinish(Run(policy, ops).state, LastStop(FramesOf(ops)))
  {
    if ops != [] {
      var n := |ops| - 1;
      var x, op, frames := Run(policy, ops[..n]), ops[n], FramesOf(ops[..n]);
      if x.state.closed {
        StaysClosed(policy, x, op);
      }
      OpenReasons(policy, ops[..n]);
      NothingMore(frames);
      match op
      case Observed(Decoded(frame)) => ObserveReasons(policy, x.state, frame, frames);
      case Closing => CloseProceeds(policy, x.state);
      case Failing(why) => FailFails(policy, x.state, why);
      case Taken =>
      case Observed(Garbled) =>
    }
  }

  predicate FinishesFor(events: seq<Event<Stored>>, raw: Option<string>) {
    forall e <- events :: e.Finished? ==> StopMeans(raw, e.reason)
  }

  lemma FinishesParts(a: seq<Event<Stored>>, b: seq<Event<Stored>>, raw: Option<string>)
    requires FinishesFor(a, raw) && FinishesFor(b, raw)
    ensures FinishesFor(a + b, raw)
  {
    assert forall e <- a + b :: e in a || e in b;
  }

  lemma ConcludeReasons(s: State, raw: Option<string>)
    requires FinishesFor(s.ready, raw) && WouldFinish(s, raw)
    ensures FinishesFor(Conclude(s).ready, raw)
  {
    var reason := s.finish.Or(Stop, reason => reason);
    assert StopMeans(raw, reason);
    FinishesParts(s.ready, [Finished(reason)], raw);
    FinishesParts(s.ready, [Spent(Accounting(s.tokens))], raw);
    FinishesParts(s.ready + [Spent(Accounting(s.tokens))], [Finished(reason)], raw);
  }

  lemma {:induction false} ReleaseKeepsReason(s: State, end: nat)
    ensures ReleaseBelow(s, end).finish == s.finish
  {
    if end != 0 {
      ReleaseKeepsReason(s, end - 1);
    }
  }

  lemma CloseReasons(policy: Policy, s: State, raw: Option<string>)
    requires !s.closed && !HasFinished(s.ready) && !Withheld(policy, s) && WouldFinish(s, raw)
    ensures FinishesFor(Close(policy, s).ready, raw)
  {
    var r, blocks := Released(s), BlocksOf(s);
    ReleasedIsQuiet(s);
    ReleaseKeepsReason(s, U32_MAX + 1);
    FinishesParts(r.ready, [AssistantReplay(blocks)], raw);
    if Signs(policy, s) {
      ConcludeReasons(r.Push(AssistantReplay(blocks)), raw);
    } else {
      ConcludeReasons(r, raw);
    }
  }

  /**
    Over every run: a response that finishes does so for the last stop reason its frames gave while it
    was open, as that reason reads, or has just stopped when they gave none.
   */
  lemma FinishedForTheLastReason(policy: Policy, ops: seq<Op>, reason: Finish)
    requires Finished(reason) in Run(policy, ops).Out()
    ensures StopMeans(LastStop(FramesOf(OpenPart(policy, ops))), reason)
  {
    var k := FinishedRun(policy, ops);
    Recut(ops, k);
    var x, raw := Run(policy, ops[..k]), LastStop(FramesOf(ops[..k]));
    OpenReasons(policy, ops[..k]);
    OpenHasNotFinished(policy, ops[..k]);
    FinishedParts(x.taken, x.state.ready);
    EitherWayCloses(policy, ops[..k], ops[k]);
    CloseReasons(policy, x.state, raw);
    FinishesParts(x.taken, Close(policy, x.state).ready, raw);
    LaterFinishes(Run(policy, ops[..k + 1]).Out(), Run(policy, ops).Out(), raw);
  }

  lemma LaterFinishes(first: seq<Event<Stored>>, out: seq<Event<Stored>>, raw: Option<string>)
    requires first <= out && AllErrors(out[|first|..]) && FinishesFor(first, raw)
    ensures FinishesFor(out, raw)
  {
    assert out == first + out[|first|..];
    FinishesParts(first, out[|first|..], raw);
  }

  // ---- calls ----------------------------------------------------------------------------------------

  /** What opening a call tells the reader: the call, at its own index, or why it cannot be one. */
  function Announcement(frame: Frame, call: Stored): Event<Stored> {
    if call.id == "" then Error(NoCallId)
    else if call.name.None? || !ValidName(call.name.value) then Error(BadName)
    else CallDelta(if frame.index.At? then Min(frame.index.n, U32_MAX) else 0, Some(call.id), call.name, "")
  }

  /** A call that is opened is announced at once, under its own index, id and name, before any argument. */
  lemma CallsAreAnnounced(policy: Policy, ops: seq<Op>, frame: Frame)
    requires !Run(policy, ops).state.closed && frame.OpensCall()
    requires !Run(policy, ops + [Observed(Decoded(frame))]).state.closed
    ensures Run(policy, ops + [Observed(Decoded(frame))]).Out()
         == Run(policy, ops).Out() + [Announcement(frame, frame.body.opening.value.block)]
  {
    var x := Run(policy, ops);
    RunJoins(policy, ops, Observed(Decoded(frame)));
    QueueUntilDispatch(policy, x.state, frame);
    Regrouped(x.taken, x.state.ready, [Announcement(frame, frame.body.opening.value.block)]);
  }

  // ---- errors ----------------------------------------------------------------------------------------

  /** An open stream that is sent an error frame closes with that error, and does not finish. */
  lemma ProviderErrorsAreReported(policy: Policy, ops: seq<Op>, frame: Frame)
    requires !Run(policy, ops).state.closed && frame.body.ErrorFrame?
    requires Refusal(policy, Run(policy, ops).state, frame).None?
    ensures var x := Run(policy, ops + [Observed(Decoded(frame))]);
            && x.state.closed && x.state.ready != []
            && x.state.ready[|x.state.ready| - 1] == Error(Provider(frame.body.message))
            && !HasFinished(x.Out())
  {
    var x := Run(policy, ops);
    RunJoins(policy, ops, Observed(Decoded(frame)));
    OpenIsInBounds(policy, ops);
    OpenHasNotFinished(policy, ops);
    ErrorFrameFails(policy, x.state, frame);
    FailFails(policy, x.state, Provider(frame.body.message));
    FailureAddsErrors(policy, x.taken, x.state, x.state.Fail(policy, Provider(frame.body.message)));
  }

  lemma ErrorFrameFails(policy: Policy, s: State, frame: Frame)
    requires !s.closed && InBounds(s) && frame.body.ErrorFrame? && Refusal(policy, s, frame).None?
    ensures Observe(policy, s, frame) == s.Fail(policy, Provider(frame.body.message))
  {
    assert LimitFrame(policy, s, frame) == s;
    assert ObserveReplay(policy, s, frame) == s;
  }

  /** A line that is not JSON is reported; it ends the stream exactly under response limits. */
  lemma GarbledLinesAreReported(policy: Policy, ops: seq<Op>)
    requires !Run(policy, ops).state.closed
    ensures var x := Run(policy, ops + [Observed(Garbled)]);
            && x.state.ready != [] && x.state.ready[|x.state.ready| - 1] == Error(NotJson)
            && (x.state.closed <==> policy.limits.Some?) && !HasFinished(x.Out())
  {
    RunJoins(policy, ops, Observed(Garbled));
    OpenHasNotFinished(policy, ops);
    FinishedParts(Run(policy, ops).taken, Run(policy, ops).state.ready);
    FinishedParts(Run(policy, ops).state.ready, [Error(NotJson)]);
    FinishedParts(Run(policy, ops).taken, [Error(NotJson)]);
    FinishedParts(Run(policy, ops).taken, Run(policy, ops).state.ready + [Error(NotJson)]);
  }
}
