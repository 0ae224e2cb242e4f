/** What holds of every run of the Messages accumulator. */
module AnthropicStreamProofs {
  import opened Wrappers
  import opened Stream
  import opened AnthropicStream

  // ---- runs ----------------------------------------------------------------------------------------

  datatype Op = Observed(line: Line) | Taken | Closing | Failing(why: Trouble)

  /** The accumulator, with every event its reader has taken. */
  datatype Session = Session(state: State, taken: seq<Event<Stored>>) {
    function Out(): seq<Event<Stored>> {
      taken + state.ready
    }
  }

  function Do(policy: Policy, x: Session, op: Op): Session {
    match op
    case Observed(line) => x.(state := ObserveLine(policy, x.state, line))
    case Closing => x.(state := Close(policy, x.state))
    case Failing(why) => x.(state := x.state.Fail(policy, why))
    case Taken =>
      if x.state.ready == [] then x
      else Session(x.state.(ready := x.state.ready[1..]), x.taken + [x.state.ready[0]])
  }

  function Run(policy: Policy, ops: seq<Op>): Session {
    if ops == [] then Session(FRESH, []) else Do(policy, Run(policy, ops[..|ops| - 1]), ops[|ops| - 1])
  }

  function FrameOf(op: Op): seq<Frame> {
    if op.Observed? && op.line.Decoded? then [op.line.frame] else []
  }

  function FramesOf(ops: seq<Op>): seq<Frame> {
    if ops == [] then [] else FramesOf(ops[..|ops| - 1]) + FrameOf(ops[|ops| - 1])
  }

  // ---- what a step does to the queue ---------------------------------------------------------------

  predicate AllErrors(events: seq<Event<Stored>>) {
    forall e <- events :: e.Error?
  }

  /** What an open stream never gives: the replay and the usage come only when it closes. */
  predicate Midway(events: seq<Event<Stored>>) {
    forall e <- events :: !e.AssistantReplay? && !e.Spent?
  }

  predicate NoReplay(events: seq<Event<Stored>>) {
    forall e <- events :: !e.AssistantReplay?
  }

  predicate Cleared(policy: Policy, s: State) {
    policy.limits.Some? && s.closed && |s.ready| == 1 && s.ready[0].Error?
  }

  /** A step that fails or does nothing to the queue. */
  predicate FailsOrNot(policy: Policy, s: State, s': State) {
    || (s'.closed == s.closed && s'.ready == s.ready)
    || Cleared(policy, s')
    || (&& policy.limits.None? && s'.closed && s.ready <= s'.ready && s.ready != s'.ready
        && AllErrors(s'.ready[|s.ready|..]))
  }

  lemma FailFails(policy: Policy, s: State, why: Trouble)
    ensures FailsOrNot(policy, s, s.Fail(policy, why)) && s.Fail(policy, why).closed
  {}

  lemma FailsTwice(policy: Policy, s: State, s': State, s'': State)
    requires FailsOrNot(policy, s, s') && FailsOrNot(policy, s', s'')
    ensures FailsOrNot(policy, s, s'')
  {
    if policy.limits.None? && s.ready <= s'.ready <= s''.ready {
      assert s''.ready[|s.ready|..] == s'.ready[|s.ready|..] + s''.ready[|s'.ready|..];
    }
  }

  lemma LimitFrameFails(policy: Policy, s: State, frame: Frame)
    ensures FailsOrNot(policy, s, LimitFrame(policy, s, frame))
  {
    FailFails(policy, s, EarlyArguments);
  }

  lemma StoreBlockFails(policy: Policy, s: State, index: nat, opening: Opening)
    ensures FailsOrNot(policy, s, StoreBlock(policy, s, index, opening))
  {
    FailFails(policy, s, BlockNotAnObject);
    FailFails(policy, s, TooManyBlocks);
    FailFails(policy, s, ReplayTooLarge);
    FailFails(policy, s.(bytes := s.bytes + opening.size), ReplayTooLarge);
  }

  lemma AbsorbDeltaFails(policy: Policy, s: State, index: nat, delta: Delta)
    ensures FailsOrNot(policy, s, AbsorbDelta(policy, s, index, delta))
  {
    if delta.Fragment? && delta.text.Some? && RECORD_BYTES_MAX < s.bytes + |delta.text.value| {
      var grown := s.(bytes := s.bytes + |delta.text.value|);
      FailFails(policy, grown, ReplayTooLarge);
      SameQueueFails(policy, s, grown, grown.Fail(policy, ReplayTooLarge));
    }
  }

  lemma SameQueueFails(policy: Policy, s: State, grown: State, s': State)
    requires grown.ready == s.ready && grown.closed == s.closed && FailsOrNot(policy, grown, s')
    ensures FailsOrNot(policy, s, s')
  {}

  lemma SealBlockFails(policy: Policy, s: State, index: nat)
    ensures FailsOrNot(policy, s, SealBlock(policy, s, index))
  {
    FailFails(policy, s.(arguments := s.arguments - {index}), BadArguments);
  }

  lemma BoundedFails(policy: Policy, s: State, s': State)
    requires FailsOrNot(policy, s, s')
    ensures FailsOrNot(policy, s, Bounded(policy, s'))
  {
    FailFails(policy, s', ReplayTooLarge);
    FailsTwice(policy, s, s', Bounded(policy, s'));
  }

  lemma ObserveReplayFails(policy: Policy, s: State, frame: Frame)
    ensures FailsOrNot(policy, s, ObserveReplay(policy, s, frame))
  {
    match frame.body
    case BlockStart(Some(opening)) => StoreBlockFails(policy, s, frame.Slot(), opening);
    case BlockDelta(Some(delta)) =>
      AbsorbDeltaFails(policy, s, frame.Slot(), delta);
      BoundedFails(policy, s, AbsorbDelta(policy, s, frame.Slot(), delta));
    case BlockStop =>
      SealBlockFails(policy, s, frame.Slot());
      BoundedFails(policy, s, SealBlock(policy, s, frame.Slot()));
    case _ => BoundedFails(policy, s, s);
  }

  /** A step of an open accumulator: it stays open, or it closes. */
  predicate Proceeds(policy: Policy, s: State, s': State) {
    || Cleared(policy, s')
    || (&& s.ready <= s'.ready
        && var more := s'.ready[|s.ready|..];
           if !s'.closed then
             Endings(more) == 0 && Midway(more) && (policy.limits.Some? ==> NoneTerminal(more))
           else
             && Endings(more) <= 1 && more != [] && more[|more| - 1].Terminal()
             && (policy.limits.Some? ==> EndsOnce(more)))
  }

  lemma {:induction false} ErrorsEndNothing(events: seq<Event<Stored>>)
    requires AllErrors(events) || NoneTerminal(events)
    ensures Endings(events) == 0
  {
    if events != [] {
      var last := events[|events| - 1];
      assert last in events && !last.Finished?;
      ErrorsEndNothing(events[..|events| - 1]);
    }
  }

  lemma FailingProceeds(policy: Policy, s: State, s': State)
    requires !s.closed && FailsOrNot(policy, s, s')
    ensures Proceeds(policy, s, s')
  {
    if !Cleared(policy, s') {
      ErrorsEndNothing(s'.ready[|s.ready|..]);
    }
  }

  lemma PushProceeds(policy: Policy, s: State, event: Event<Stored>)
    requires !s.closed && !event.Finished? && !event.AssistantReplay? && !event.Spent?
    requires policy.limits.Some? ==> !event.Error?
    ensures Proceeds(policy, s, s.Push(event))
  {
    var more := s.Push(event).ready[|s.ready|..];
    assert more == [event] && more[..0] == [];
    assert Endings(more) == Endings(more[..0]) + 0;
  }

  // ---- closing -------------------------------------------------------------------------------------

  /** Only argument releases are added. */
  predicate Releases(s: State, s': State) {
    s.ready <= s'.ready && forall e <- s'.ready[|s.ready|..] :: e.CallDelta?
  }

  lemma {:induction false} ReleaseBelowReleases(s: State, end: nat)
    ensures Releases(s, ReleaseBelow(s, end))
  {
    if end != 0 {
      ReleaseBelowReleases(s, end - 1);
      var before, after := ReleaseBelow(s, end - 1), ReleaseBelow(s, end);
      if end - 1 in before.held {
        assert after.ready[|s.ready|..] == before.ready[|s.ready|..] + [after.ready[|after.ready| - 1]];
      }
    }
  }

  lemma PushAfter(s: State, event: Event<Stored>, from: nat)
    requires from <= |s.ready|
    ensures s.ready <= s.Push(event).ready && s.Push(event).ready[from..] == s.ready[from..] + [event]
  {}

  lemma QuietThenEvent(events: seq<Event<Stored>>, event: Event<Stored>)
    requires NoneTerminal(events)
    ensures !event.Terminal() ==> NoneTerminal(events + [event])
    ensures event.Terminal() ==> EndsOnce(events + [event])
    ensures Endings(events + [event]) == if event.Finished? then 1 else 0
  {
    assert (events + [event])[..|events|] == events;
    ErrorsEndNothing(events);
  }

  /** Events of which none ends the stream, then the accounting, then the end. */
  lemma ConcludeEndsOnce(s: State, from: nat)
    requires from <= |s.ready| && NoneTerminal(s.ready[from..])
    ensures var end := Conclude(s).ready;
            s.ready <= end && EndsOnce(end[from..]) && Endings(end[from..]) == 1
  {
    var usage := Accounting(s.tokens);
    var end := Finished(s.finish.Or(Stop, reason => reason));
    if 0 < Saturated(usage.prompt, usage.completion) {
      var told := s.Push(Spent(usage));
      PushAfter(s, Spent(usage), from);
      QuietThenEvent(s.ready[from..], Spent(usage));
      PushAfter(told, end, from);
      QuietThenEvent(told.ready[from..], end);
    } else {
      PushAfter(s, end, from);
      QuietThenEvent(s.ready[from..], end);
    }
  }

  lemma DeliverProceeds(policy: Policy, s: State, from: nat, blocks: seq<Stored>)
    requires s.closed && from <= |s.ready| && NoneTerminal(s.ready[from..])
    ensures var s' := Deliver(policy, s, blocks);
            && s'.closed
            && (|| Cleared(policy, s')
                || (s.ready <= s'.ready && EndsOnce(s'.ready[from..]) && Endings(s'.ready[from..]) <= 1))
  {
    var more := s.ready[from..];
    var tooLarge := policy.limits.Some? && policy.limits.value.eventBytes < policy.replaySize(blocks);
    if s.void || !HasThinking(blocks) {
      ConcludeEndsOnce(s, from);
    } else if !HasUnsigned(blocks) && !tooLarge {
      PushAfter(s, AssistantReplay(blocks), from);
      QuietThenEvent(more, AssistantReplay(blocks));
      ConcludeEndsOnce(s.Push(AssistantReplay(blocks)), from);
    } else if policy.limits.None? {
      var why := if HasUnsigned(blocks) then Unsigned else ReplayTooLarge;
      PushAfter(s, Error(why), from);
      QuietThenEvent(more, Error(why));
    }
  }

  lemma CloseProceeds(policy: Policy, s: State)
    requires !s.closed
    ensures Proceeds(policy, s, Close(policy, s)) && Close(policy, s).closed
  {
    ReleaseBelowReleases(s, U32_MAX + 1);
    var released := ReleaseBelow(s, U32_MAX + 1).(closed := true, blocks := map[]);
    assert NoneTerminal(released.ready[|s.ready|..]);
    DeliverProceeds(policy, released, |s.ready|, ValuesBelow(s.blocks, U32_MAX + 1));
  }

  // ---- one step ------------------------------------------------------------------------------------

  lemma DispatchProceeds(policy: Policy, s: State, frame: Frame)
    requires !s.closed
    ensures Proceeds(policy, s, Dispatch(policy, s, frame))
  {
    match frame.body
    case BlockStart(Some(Opened(block, _))) => ObserveStartProceeds(policy, s, frame.Slot(), block);
    case BlockDelta(Some(delta)) => ObserveDeltaProceeds(policy, s, frame.Slot(), delta);
    case BlockStop =>
      if frame.Slot() in s.held {
        var event := CallDelta(frame.Slot(), None, None, s.held[frame.Slot()].Released());
        PushProceeds(policy, s.(held := s.held - {frame.Slot()}), event);
      }
    case MessageStop => CloseProceeds(policy, s);
    case ErrorFrame(message) =>
      FailFails(policy, s, Provider(message));
      FailingProceeds(policy, s, s.Fail(policy, Provider(message)));
    case _ =>
  }

  lemma TellProceeds(policy: Policy, s: State, event: Option<Event<Stored>>)
    requires !s.closed && (event.Some? ==> !event.value.Terminal() && Midway([event.value]))
    ensures Proceeds(policy, s, s.Tell(event))
  {
    if event.Some? {
      PushProceeds(policy, s, event.value);
    } else {
      assert s.ready[|s.ready|..] == [];
    }
  }

  lemma ObserveStartProceeds(policy: Policy, s: State, index: nat, block: Stored)
    requires !s.closed
    ensures Proceeds(policy, s, ObserveStart(policy, s, index, block))
  {
    if block.kind != ToolUseBlock {
      TellProceeds(policy, s, Told(block.text, false));
      TellProceeds(policy, s, Told(block.thinking, true));
      TellProceeds(policy, s, None);
    } else if CallEvent(index, block).Error? && policy.limits.Some? {
      FailFails(policy, s, CallEvent(index, block).why);
      FailingProceeds(policy, s, s.Fail(policy, CallEvent(index, block).why));
    } else {
      PushProceeds(policy, s, CallEvent(index, block));
    }
  }

  lemma ObserveDeltaProceeds(policy: Policy, s: State, index: nat, delta: Delta)
    requires !s.closed
    ensures Proceeds(policy, s, ObserveDelta(s, index, delta))
  {
    TellProceeds(policy, s, DeltaEvent(index in s.held, index, delta));
  }

  lemma ObserveProceeds(policy: Policy, s: State, line: Line)
    requires !s.closed
    ensures Proceeds(policy, s, ObserveLine(policy, s, line))
  {
    if line.Garbled? {
      if policy.limits.None? {
        PushProceeds(policy, s, Error(NotJson));
      } else {
        FailFails(policy, s, NotJson);
        FailingProceeds(policy, s, s.Fail(policy, NotJson));
      }
    } else {
      var frame := line.frame;
      var refusal := Refusal(policy, s, frame);
      if refusal.Some? {
        FailFails(policy, s, refusal.value);
        FailingProceeds(policy, s, s.Fail(policy, refusal.value));
      } else {
        var limited := if policy.arguments == [] then s else LimitFrame(policy, s, frame);
        LimitFrameFails(policy, s, frame);
        var kept := ObserveReplay(policy, limited, frame);
        ObserveReplayFails(policy, limited, frame);
        FailsTwice(policy, s, limited, kept);
        if policy.arguments != [] && limited.closed {
          FailingProceeds(policy, s, limited);
        } else if kept.closed {
          FailingProceeds(policy, s, kept);
        } else {
          DispatchProceeds(policy, kept, frame);
        }
      }
    }
  }

  /** A step after the end: whatever it adds is an error. */
  predicate OnlyErrors(policy: Policy, s: State, s': State) {
    && s'.closed
    && (|| Cleared(policy, s')
        || (s.ready <= s'.ready && AllErrors(s'.ready[|s.ready|..])))
  }

  lemma LateFrameOnlyErrors(policy: Policy, s: State, frame: Frame)
    requires s.closed
    ensures OnlyErrors(policy, s, Observe(policy, s, frame))
  {
    if policy.limits.None? {
      var limited := if policy.arguments == [] then s else LimitFrame(policy, s, frame);
      LimitFrameFails(policy, s, frame);
      ObserveReplayFails(policy, limited, frame);
      FailsTwice(policy, s, limited, ObserveReplay(policy, limited, frame));
    }
  }

  lemma LateStepOnlyErrors(policy: Policy, x: Session, op: Op)
    requires x.state.closed && !op.Taken?
    ensures OnlyErrors(policy, x.state, Do(policy, x, op).state)
  {
    match op
    case Observed(line) =>
      if line.Decoded? {
        LateFrameOnlyErrors(policy, x.state, line.frame);
      }
    case Failing(why) => FailFails(policy, x.state, why);
    case Closing =>
    case Taken =>
  }

  // ---- the end of a stream -------------------------------------------------------------------------

  lemma OpenStepProceeds(policy: Policy, x: Session, op: Op)
    requires !x.state.closed && !op.Taken?
    ensures Proceeds(policy, x.state, Do(policy, x, op).state)
  {
    match op
    case Observed(line) => ObserveProceeds(policy, x.state, line);
    case Closing => CloseProceeds(policy, x.state);
    case Failing(why) =>
      FailFails(policy, x.state, why);
      FailingProceeds(policy, x.state, x.state.Fail(policy, why));
    case Taken =>
  }

  /** Taking an event moves it; nothing is lost and nothing else changes. */
  lemma TakingKeepsEverything(policy: Policy, x: Session)
    ensures Do(policy, x, Taken).Out() == x.Out()
    ensures Do(policy, x, Taken).state == x.state.(ready := Do(policy, x, Taken).state.ready)
  {}

  predicate EndsAtMostOnce(x: Session) {
    Endings(x.Out()) <= if x.state.closed then 1 else 0
  }

  /** What a step adds to the queue it adds to everything produced. */
  lemma OutGrows(taken: seq<Event<Stored>>, before: seq<Event<Stored>>, after: seq<Event<Stored>>)
    requires before <= after
    ensures taken + after == taken + before + after[|before|..]
    ensures Endings(taken + after) == Endings(taken + before) + Endings(after[|before|..])
  {
    Regrouped(taken, before, after[|before|..]);
    EndingsJoin(taken + before, after[|before|..]);
  }

  lemma ClearedCounts(policy: Policy, taken: seq<Event<Stored>>, before: seq<Event<Stored>>, s': State)
    requires Cleared(policy, s')
    ensures Endings(taken + s'.ready) <= Endings(taken + before)
  {
    ErrorsEndNothing(s'.ready);
    EndingsJoin(taken, s'.ready);
    EndingsJoin(taken, before);
  }

  lemma EndsAtMostOnceKeeps(policy: Policy, x: Session, op: Op)
    requires EndsAtMostOnce(x)
    ensures EndsAtMostOnce(Do(policy, x, op))
  {
    if op.Taken? {
      TakingKeepsEverything(policy, x);
    } else {
      var s' := Do(policy, x, op).state;
      if x.state.closed {
        LateStepOnlyErrors(policy, x, op);
      } else {
        OpenStepProceeds(policy, x, op);
      }
      if Cleared(policy, s') {
        ClearedCounts(policy, x.taken, x.state.ready, s');
      } else {
        OutGrows(x.taken, x.state.ready, s'.ready);
        if x.state.closed {
          ErrorsEndNothing(s'.ready[|x.state.ready|..]);
        }
      }
    }
  }

  /** Over every run, at most one `Finished` is produced, and none before the stream closes. */
  lemma {:induction false} AtMostOneFinish(policy: Policy, ops: seq<Op>)
    ensures Endings(Run(policy, ops).Out()) <= 1
    ensures !Run(policy, ops).state.closed ==> Endings(Run(policy, ops).Out()) == 0
    ensures EndsAtMostOnce(Run(policy, ops))
  {
    if ops != [] {
      AtMostOneFinish(policy, ops[..|ops| - 1]);
      EndsAtMostOnceKeeps(policy, Run(policy, ops[..|ops| - 1]), ops[|ops| - 1]);
    }
  }

  /**
    `later` repeats the first `kept` events of `earlier` and adds only errors to them.
   */
  predicate ErrorsAfter(earlier: seq<Event<Stored>>, kept: nat, later: seq<Event<Stored>>) {
    && kept <= |earlier| && kept <= |later| && earlier[..kept] == later[..kept]
    && AllErrors(later[kept..])
  }

  lemma {:induction false} RunJoins(policy: Policy, ops: seq<Op>, op: Op)
    ensures Run(policy, ops + [op]) == Do(policy, Run(policy, ops), op)
  {
    assert (ops + [op])[..|ops|] == ops;
  }

  lemma ErrorsAfterErrors(a: seq<Event<Stored>>, i: nat, b: seq<Event<Stored>>, j: nat, c: seq<Event<Stored>>)
    requires ErrorsAfter(a, i, b) && ErrorsAfter(b, j, c)
    ensures ErrorsAfter(a, Min(i, j), c)
  {
    if i <= j {
      assert a[..i] == b[..j][..i] == c[..i];
      assert c[i..] == b[i..j] + c[j..];
      assert b[i..] == b[i..j] + b[j..];
    } else {
      assert a[..j] == a[..i][..j] == b[..j];
    }
  }

  lemma GrowthIsErrors(taken: seq<Event<Stored>>, before: seq<Event<Stored>>, after: seq<Event<Stored>>)
    requires before <= after && AllErrors(after[|before|..])
    ensures ErrorsAfter(taken + before, |taken + before|, taken + after)
  {
    OutGrows(taken, before, after);
  }

  lemma ClearingKeepsTaken(taken: seq<Event<Stored>>, before: seq<Event<Stored>>, after: seq<Event<Stored>>)
    requires AllErrors(after)
    ensures ErrorsAfter(taken + before, |taken|, taken + after)
  {
    assert (taken + after)[|taken|..] == after;
  }

  lemma LateStepAddsErrors(policy: Policy, x: Session, op: Op)
    requires x.state.closed
    ensures var x' := Do(policy, x, op);
            && x'.state.closed && x.taken <= x'.taken
            && (ErrorsAfter(x.Out(), |x.Out()|, x'.Out())
                || (policy.limits.Some? && x'.taken == x.taken && ErrorsAfter(x.Out(), |x.taken|, x'.Out())))
  {
    if op.Taken? {
      TakingKeepsEverything(policy, x);
    } else {
      LateStepOnlyErrors(policy, x, op);
      var s' := Do(policy, x, op).state;
      if Cleared(policy, s') {
        ClearingKeepsTaken(x.taken, x.state.ready, s'.ready);
      } else {
        GrowthIsErrors(x.taken, x.state.ready, s'.ready);
      }
    }
  }

  /**
    Nothing but errors follows closure. Without response limits every event already produced stays;
    with them a late failure may drop events that were not taken yet, never one that was.
   */
  lemma {:induction false} OnlyErrorsFollow(policy: Policy, ops: seq<Op>, later: seq<Op>) returns (kept: nat)
    requires Run(policy, ops).state.closed
    ensures Run(policy, ops + later).state.closed
    ensures |Run(policy, ops).taken| <= kept
    ensures ErrorsAfter(Run(policy, ops).Out(), kept, Run(policy, ops + later).Out())
    ensures policy.limits.None? ==> kept == |Run(policy, ops).Out()|
  {
    var x := Run(policy, ops);
    if later == [] {
      assert ops + later == ops;
      kept := |x.Out()|;
    } else {
      var n := |later| - 1;
      var before := OnlyErrorsFollow(policy, ops, later[..n]);
      assert ops + later == (ops + later[..n]) + [later[n]];
      RunJoins(policy, ops + later[..n], later[n]);
      var y, y' := Run(policy, ops + later[..n]), Run(policy, ops + later);
      LateStepAddsErrors(policy, y, later[n]);
      TakenStays(policy, ops, later[..n]);
      var step := if ErrorsAfter(y.Out(), |y.Out()|, y'.Out()) then |y.Out()| else |y.taken|;
      ErrorsAfterErrors(x.Out(), before, y.Out(), step, y'.Out());
      kept := Min(before, step);
    }
  }

  lemma {:induction false} TakenStays(policy: Policy, ops: seq<Op>, later: seq<Op>)
    ensures Run(policy, ops).taken <= Run(policy, ops + later).taken
  {
    if later == [] {
      assert ops + later == ops;
    } else {
      var n := |later| - 1;
      TakenStays(policy, ops, later[..n]);
      assert ops + later == (ops + later[..n]) + [later[n]];
      RunJoins(policy, ops + later[..n], later[n]);
    }
  }

  /** A closed stream's last event ends it. */
  predicate EndsTerminal(x: Session) {
    x.state.closed ==> x.Out() != [] && x.Out()[|x.Out()| - 1].Terminal()
  }

  lemma EndsTerminalKeeps(policy: Policy, x: Session, op: Op)
    requires EndsTerminal(x)
    ensures EndsTerminal(Do(policy, x, op))
  {
    if op.Taken? {
      TakingKeepsEverything(policy, x);
    } else if x.state.closed {
      LateStepOnlyErrors(policy, x, op);
      TerminalStays(policy, x, Do(policy, x, op).state);
    } else {
      OpenStepProceeds(policy, x, op);
      TerminalArrives(policy, x, Do(policy, x, op).state);
    }
  }

  lemma TerminalStays(policy: Policy, x: Session, s': State)
    requires x.state.closed && EndsTerminal(x) && OnlyErrors(policy, x.state, s')
    ensures EndsTerminal(x.(state := s'))
  {
    if !Cleared(policy, s') {
      var more := s'.ready[|x.state.ready|..];
      assert x.taken + s'.ready == x.Out() + more;
      TerminalJoins(x.Out(), more);
    }
  }

  lemma TerminalArrives(policy: Policy, x: Session, s': State)
    requires !x.state.closed && Proceeds(policy, x.state, s')
    ensures EndsTerminal(x.(state := s'))
  {
    if s'.closed && !Cleared(policy, s') {
      var more := s'.ready[|x.state.ready|..];
      assert x.taken + s'.ready == x.Out() + more;
    }
  }

  lemma TerminalJoins(a: seq<Event<Stored>>, b: seq<Event<Stored>>)
    requires b == [] || b[|b| - 1].Terminal() || AllErrors(b)
    ensures b == [] ==> a + b == a
    ensures b != [] ==> (a + b)[|a + b| - 1].Terminal()
  {}

  // ---- the end under response limits ---------------------------------------------------------------

  /** Nothing terminal while open; once closed, exactly one terminal event and it is the last. */
  predicate Orderly(x: Session) {
    if x.state.closed then EndsOnce(x.Out()) else NoneTerminal(x.Out())
  }

  lemma EndsOnceJoins(a: seq<Event<Stored>>, b: seq<Event<Stored>>)
    requires NoneTerminal(a)
    ensures NoneTerminal(b) ==> NoneTerminal(a + b)
    ensures EndsOnce(b) ==> EndsOnce(a + b)
  {
    if b != [] {
      assert (a + b)[..|a + b| - 1] == a + b[..|b| - 1];
    }
  }

  lemma OrderlyKeeps(policy: Policy, x: Session, op: Op)
    requires policy.limits.Some? && Orderly(x) && (op.Failing? ==> !x.state.closed)
    ensures Orderly(Do(policy, x, op))
  {
    if op.Taken? {
      TakingKeepsEverything(policy, x);
    } else if !x.state.closed {
      OpenStepProceeds(policy, x, op);
      OrderlyProceeds(policy, x, Do(policy, x, op).state);
    }
  }

  lemma OrderlyProceeds(policy: Policy, x: Session, s': State)
    requires policy.limits.Some? && !x.state.closed && NoneTerminal(x.Out()) && Proceeds(policy, x.state, s')
    ensures Orderly(x.(state := s'))
  {
    if Cleared(policy, s') {
      assert NoneTerminal(x.taken) by {
        assert forall k | 0 <= k < |x.taken| :: x.taken[k] == x.Out()[k];
      }
      assert s'.ready[..0] == [];
      EndsOnceJoins(x.taken, s'.ready);
    } else {
      var more := s'.ready[|x.state.ready|..];
      EndsOnceJoins(x.Out(), more);
      assert x.taken + s'.ready == x.Out() + more;
    }
  }
}
