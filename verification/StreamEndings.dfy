/** How a stream closes, and what is open before it does. */
module StreamEndings {
  import opened Stream
  import opened AnthropicStream
  import opened AnthropicStreamProofs

  lemma StaysClosed(policy: Policy, x: Session, op: Op)
    requires x.state.closed
    ensures Do(policy, x, op).state.closed
  {
    if !op.Taken? {
      LateStepOnlyErrors(policy, x, op);
    }
  }

  // ---- the two ways of closing ---------------------------------------------------------------------

  /**
    The steps that close a stream without failing it: a direct close, and the provider's last frame
    when no budget refuses it.
   */
  predicate Ends(policy: Policy, s: State, op: Op) {
    || op.Closing?
    || (&& op.Observed? && op.line.Decoded? && op.line.frame.body.MessageStop?
        && Refusal(policy, s, op.line.frame).None?)
  }

  predicate InBounds(s: State) {
    !s.closed ==> s.bytes <= RECORD_BYTES_MAX
  }

  lemma StoreInBounds(policy: Policy, s: State, index: nat, opening: Opening)
    ensures var s' := StoreBlock(policy, s, index, opening);
            s'.closed || s'.bytes <= RECORD_BYTES_MAX
  {}

  lemma BoundedInBounds(policy: Policy, s: State)
    ensures Bounded(policy, s).closed || Bounded(policy, s).bytes <= RECORD_BYTES_MAX
  {}

  lemma ReplayInBounds(policy: Policy, s: State, frame: Frame)
    ensures ObserveReplay(policy, s, frame).closed || ObserveReplay(policy, s, frame).bytes <= RECORD_BYTES_MAX
  {
    match frame.body
    case BlockStart(Some(opening)) => StoreInBounds(policy, s, frame.Slot(), opening);
    case BlockDelta(Some(delta)) => BoundedInBounds(policy, AbsorbDelta(policy, s, frame.Slot(), delta));
    case BlockStop => BoundedInBounds(policy, SealBlock(policy, s, frame.Slot()));
    case _ => BoundedInBounds(policy, s);
  }

  lemma DispatchKeepsBytes(policy: Policy, s: State, frame: Frame)
    requires !s.closed
    ensures Dispatch(policy, s, frame).closed || Dispatch(policy, s, frame).bytes == s.bytes
  {
    if frame.body.MessageStop? {
      CloseProceeds(policy, s);
    }
  }

  lemma ObserveInBounds(policy: Policy, s: State, frame: Frame)
    requires !s.closed
    ensures InBounds(Observe(policy, s, frame))
  {
    var limited := if policy.arguments == [] then s else LimitFrame(policy, s, frame);
    LimitFrameFails(policy, s, frame);
    ReplayInBounds(policy, limited, frame);
    var kept := ObserveReplay(policy, limited, frame);
    if !kept.closed {
      DispatchKeepsBytes(policy, kept, frame);
    }
  }

  /** An open stream has kept no more than one record of replay. */
  lemma {:induction false} OpenIsInBounds(policy: Policy, ops: seq<Op>)
    ensures InBounds(Run(policy, ops).state)
  {
    if ops != [] {
      var x, op := Run(policy, ops[..|ops| - 1]), ops[|ops| - 1];
      OpenIsInBounds(policy, ops[..|ops| - 1]);
      if x.state.closed {
        StaysClosed(policy, x, op);
      } else if op.Observed? && op.line.Decoded? {
        ObserveInBounds(policy, x.state, op.line.frame);
      } else if op.Closing? {
        CloseProceeds(policy, x.state);
      }
    }
  }

  lemma EndCloses(policy: Policy, x: Session, end: Op)
    requires !x.state.closed && InBounds(x.state) && Ends(policy, x.state, end)
    ensures Do(policy, x, end) == Do(policy, x, Closing) == x.(state := Close(policy, x.state))
    ensures Close(policy, x.state).closed
  {
    CloseProceeds(policy, x.state);
  }

  /** The provider's last frame does exactly what a direct close does. */
  lemma EitherWayCloses(policy: Policy, ops: seq<Op>, end: Op)
    requires !Run(policy, ops).state.closed && Ends(policy, Run(policy, ops).state, end)
    ensures Run(policy, ops + [end]) == Run(policy, ops + [Closing])
    ensures Run(policy, ops + [end]) == Run(policy, ops).(state := Close(policy, Run(policy, ops).state))
    ensures Run(policy, ops + [end]).state.closed
  {
    RunJoins(policy, ops, end);
    RunJoins(policy, ops, Closing);
    OpenIsInBounds(policy, ops);
    EndCloses(policy, Run(policy, ops), end);
  }

  // ---- every other way of closing fails ------------------------------------------------------------

  lemma DispatchFails(policy: Policy, s: State, frame: Frame)
    requires !s.closed && Dispatch(policy, s, frame).closed && !frame.body.MessageStop?
    ensures FailsOrNot(policy, s, Dispatch(policy, s, frame))
  {
    match frame.body
    case BlockStart(Some(Opened(block, _))) =>
      if CallEvent(frame.Slot(), block).Error? {
        FailFails(policy, s, CallEvent(frame.Slot(), block).why);
      }
    case ErrorFrame(message) => FailFails(policy, s, Provider(message));
    case _ =>
  }

  lemma FrameFails(policy: Policy, s: State, frame: Frame)
    requires !s.closed && Observe(policy, s, frame).closed
    requires frame.body.MessageStop? ==> Refusal(policy, s, frame).Some?
    ensures FailsOrNot(policy, s, Observe(policy, s, frame))
  {
    var refusal := Refusal(policy, s, frame);
    if refusal.Some? {
      FailFails(policy, s, refusal.value);
    } else {
      var limited := if policy.arguments == [] then s else LimitFrame(policy, s, frame);
      LimitFrameFails(policy, s, frame);
      var kept := ObserveReplay(policy, limited, frame);
      ObserveReplayFails(policy, limited, frame);
      FailsTwice(policy, s, limited, kept);
      if !kept.closed {
        DispatchFails(policy, kept, frame);
        FailsTwice(policy, s, kept, Dispatch(policy, kept, frame));
      }
    }
  }

  /** A step that closes a stream and is not one of the two fails it. */
  lemma OtherClosingFails(policy: Policy, x: Session, op: Op)
    requires !x.state.closed && Do(policy, x, op).state.closed && !Ends(policy, x.state, op)
    ensures FailsOrNot(policy, x.state, Do(policy, x, op).state) && Do(policy, x, op).taken == x.taken
  {
    match op
    case Observed(Decoded(frame)) => FrameFails(policy, x.state, frame);
    case Observed(Garbled) => FailFails(policy, x.state, NotJson);
    case Failing(why) => FailFails(policy, x.state, why);
    case Taken =>
    case Closing =>
  }

  // ---- the open part of a run ----------------------------------------------------------------------

  /** The longest part of a run after which the stream is still open. */
  function OpenPart(policy: Policy, ops: seq<Op>): seq<Op> {
    if ops == [] || !Run(policy, ops).state.closed then ops else OpenPart(policy, ops[..|ops| - 1])
  }

  lemma {:induction false} OpenPartIsOpen(policy: Policy, ops: seq<Op>)
    ensures var k := |OpenPart(policy, ops)|;
            && k <= |ops| && OpenPart(policy, ops) == ops[..k] && !Run(policy, ops[..k]).state.closed
            && (k < |ops| ==> Run(policy, ops[..k + 1]).state.closed)
            && (Run(policy, ops).state.closed ==> k < |ops|)
  {
    if ops == [] || !Run(policy, ops).state.closed {
      assert ops[..|ops|] == ops;
    } else {
      var init := ops[..|ops| - 1];
      OpenPartIsOpen(policy, init);
      var k := |OpenPart(policy, init)|;
      assert init[..k] == ops[..k];
      if k < |init| {
        assert init[..k + 1] == ops[..k + 1];
      } else {
        assert ops[..k + 1] == ops;
      }
    }
  }

  lemma {:induction false} OpenIsMidway(policy: Policy, ops: seq<Op>)
    requires !Run(policy, ops).state.closed
    ensures Midway(Run(policy, ops).Out())
  {
    if ops != [] {
      var n := |ops| - 1;
      var x, op := Run(policy, ops[..n]), ops[n];
      if x.state.closed {
        StaysClosed(policy, x, op);
      }
      OpenIsMidway(policy, ops[..n]);
      if op.Taken? {
        TakingKeepsEverything(policy, x);
      } else {
        OpenStepProceeds(policy, x, op);
        var ready := Do(policy, x, op).state.ready;
        OutGrows(x.taken, x.state.ready, ready);
        MidwayParts(x.Out(), ready[|x.state.ready|..]);
      }
    }
  }

  lemma MidwayParts(a: seq<Event<Stored>>, b: seq<Event<Stored>>)
    ensures Midway(a + b) <==> Midway(a) && Midway(b)
  {
    assert forall k | 0 <= k < |a| :: a[k] == (a + b)[k];
    assert forall k | 0 <= k < |b| :: b[k] == (a + b)[|a| + k];
  }

  lemma NoReplayParts(a: seq<Event<Stored>>, b: seq<Event<Stored>>)
    ensures NoReplay(a + b) <==> NoReplay(a) && NoReplay(b)
    ensures forall e <- b :: e in a + b
  {
    assert forall k | 0 <= k < |a| :: a[k] == (a + b)[k];
    assert forall k | 0 <= k < |b| :: b[k] == (a + b)[|a| + k];
  }

  lemma {:induction false} NothingHeld(s: State, end: nat)
    requires s.held == map[] && s.blocks == map[]
    ensures ReleaseBelow(s, end) == s && ValuesBelow(s.blocks, end) == []
  {
    if end != 0 {
      NothingHeld(s, end - 1);
    }
  }

  // ---- a stream that finished ----------------------------------------------------------------------

  predicate HasFinished(events: seq<Event<Stored>>) {
    exists e <- events :: e.Finished?
  }

  lemma {:induction false} EndingsCount(events: seq<Event<Stored>>)
    ensures Endings(events) == 0 <==> !HasFinished(events)
  {
    if events != [] {
      var init, last := events[..|events| - 1], events[|events| - 1];
      EndingsCount(init);
      assert last in events;
      assert forall e <- events :: e in init || e == last;
    }
  }

  lemma FinishedParts(a: seq<Event<Stored>>, b: seq<Event<Stored>>)
    ensures HasFinished(a + b) <==> HasFinished(a) || HasFinished(b)
  {
    assert forall k | 0 <= k < |a| :: a[k] == (a + b)[k];
    assert forall k | 0 <= k < |b| :: b[k] == (a + b)[|a| + k];
  }

  predicate Fits(policy: Policy, blocks: seq<Stored>) {
    policy.limits.None? || policy.replaySize(blocks) <= policy.limits.value.eventBytes
  }

  /** What the blocks of an open stream come to when it closes, in index order. */
  function BlocksOf(s: State): seq<Stored> {
    ValuesBelow(s.blocks, U32_MAX + 1)
  }

  /** Whether closing gives a signed replay. */
  predicate Signs(policy: Policy, s: State) {
    !s.void && HasThinking(BlocksOf(s)) && !HasUnsigned(BlocksOf(s)) && Fits(policy, BlocksOf(s))
  }

  /** Whether closing fails instead: there is thinking to replay and it cannot be. */
  predicate Withheld(policy: Policy, s: State) {
    !s.void && HasThinking(BlocksOf(s)) && !Signs(policy, s)
  }

  /** `Finished` is the last event and the only one. */
  predicate FinishesLast(events: seq<Event<Stored>>) {
    events != [] && events[|events| - 1].Finished? && !HasFinished(events[..|events| - 1])
  }

  lemma PushFinishes(events: seq<Event<Stored>>, event: Event<Stored>)
    requires !HasFinished(events)
    ensures if event.Finished? then FinishesLast(events + [event]) else !HasFinished(events + [event])
  {
    FinishedParts(events, [event]);
    assert (events + [event])[..|events|] == events;
  }

  lemma ConcludeFinishes(s: State)
    requires !HasFinished(s.ready)
    ensures FinishesLast(Conclude(s).ready)
  {
    var usage := Accounting(s.tokens);
    PushFinishes(s.ready, Spent(usage));
    var told := if 0 < Saturated(usage.prompt, usage.completion) then s.Push(Spent(usage)) else s;
    PushFinishes(told.ready, Finished(s.finish.Or(Stop, reason => reason)));
  }

  lemma {:induction false} ReleaseKeepsCounts(s: State, end: nat)
    ensures ReleaseBelow(s, end).void == s.void && ReleaseBelow(s, end).tokens == s.tokens
  {
    if end != 0 {
      ReleaseKeepsCounts(s, end - 1);
    }
  }

  /** The state closing starts from, once what is held has been released. */
  function Released(s: State): State {
    ReleaseBelow(s, U32_MAX + 1).(closed := true, blocks := map[])
  }

  lemma ReleasedIsQuiet(s: State)
    requires !HasFinished(s.ready)
    ensures !HasFinished(Released(s).ready) && s.ready <= Released(s).ready && Released(s).void == s.void
    ensures NoReplay(s.ready) ==> NoReplay(Released(s).ready)
  {
    ReleaseBelowReleases(s, U32_MAX + 1);
    ReleaseKeepsCounts(s, U32_MAX + 1);
    var ready := Released(s).ready;
    assert ready == s.ready + ready[|s.ready|..];
    FinishedParts(s.ready, ready[|s.ready|..]);
    NoReplayParts(s.ready, ready[|s.ready|..]);
  }

  /** Closing finishes the stream, unless the replay is withheld. */
  lemma CloseFinishes(policy: Policy, s: State)
    requires !s.closed && !HasFinished(s.ready)
    ensures var s' := Close(policy, s);
            && (Withheld(policy, s) ==> !HasFinished(s'.ready))
            && (!Withheld(policy, s) ==> FinishesLast(s'.ready))
            && (policy.limits.Some? ==> (Withheld(policy, s) <==> Cleared(policy, s')))
  {
    var r, blocks := Released(s), BlocksOf(s);
    ReleasedIsQuiet(s);
    if Withheld(policy, s) {
      PushFinishes(r.ready, Error(Unsigned));
      PushFinishes(r.ready, Error(ReplayTooLarge));
    } else if Signs(policy, s) {
      PushFinishes(r.ready, AssistantReplay(blocks));
      ConcludeFinishes(r.Push(AssistantReplay(blocks)));
    } else {
      ConcludeFinishes(r);
    }
  }

  lemma FinishesLastJoins(a: seq<Event<Stored>>, b: seq<Event<Stored>>)
    requires !HasFinished(a) && FinishesLast(b)
    ensures FinishesLast(a + b)
  {
    assert (a + b)[..|a + b| - 1] == a + b[..|b| - 1];
    FinishedParts(a, b[..|b| - 1]);
  }

  lemma ErrorsFinishNothing(events: seq<Event<Stored>>)
    requires AllErrors(events)
    ensures !HasFinished(events) && NoReplay(events)
  {}

  lemma FailureAddsErrors(policy: Policy, taken: seq<Event<Stored>>, s: State, s': State)
    requires FailsOrNot(policy, s, s')
    ensures HasFinished(taken + s'.ready) ==> HasFinished(taken + s.ready)
    ensures NoReplay(taken + s.ready) ==> NoReplay(taken + s'.ready)
  {
    FinishedParts(taken, s.ready);
    FinishedParts(taken, s'.ready);
    NoReplayParts(taken, s.ready);
    NoReplayParts(taken, s'.ready);
    if s.ready != s'.ready && !Cleared(policy, s') {
      var more := s'.ready[|s.ready|..];
      assert s'.ready == s.ready + more;
      FinishedParts(s.ready, more);
      NoReplayParts(s.ready, more);
      ErrorsFinishNothing(more);
    }
  }

  /** A step that closes a stream gives `Finished` exactly when it is one of the two and nothing is withheld. */
  lemma ClosingStepFinishes(policy: Policy, x: Session, op: Op)
    requires !x.state.closed && InBounds(x.state) && !HasFinished(x.Out()) && Do(policy, x, op).state.closed
    ensures var out := Do(policy, x, op).Out();
            if Ends(policy, x.state, op) && !Withheld(policy, x.state) then FinishesLast(out) else !HasFinished(out)
  {
    FinishedParts(x.taken, x.state.ready);
    if Ends(policy, x.state, op) {
      EndCloses(policy, x, op);
      CloseFinishes(policy, x.state);
      var ready := Close(policy, x.state).ready;
      FinishedParts(x.taken, ready);
      if !Withheld(policy, x.state) {
        FinishesLastJoins(x.taken, ready);
      }
    } else {
      OtherClosingFails(policy, x, op);
      FailureAddsErrors(policy, x.taken, x.state, Do(policy, x, op).state);
    }
  }

  lemma OpenHasNotFinished(policy: Policy, ops: seq<Op>)
    requires !Run(policy, ops).state.closed
    ensures !HasFinished(Run(policy, ops).Out())
  {
    AtMostOneFinish(policy, ops);
    EndingsCount(Run(policy, ops).Out());
  }

  /** A closed run, cut at the step that closed it: later steps keep its first `kept` events and add errors. */
  lemma ClosedRun(policy: Policy, ops: seq<Op>) returns (k: nat, kept: nat)
    requires Run(policy, ops).state.closed
    ensures k < |ops| && OpenPart(policy, ops) == ops[..k] && !Run(policy, ops[..k]).state.closed
    ensures Run(policy, ops[..k + 1]) == Do(policy, Run(policy, ops[..k]), ops[k])
    ensures Run(policy, ops[..k + 1]).state.closed
    ensures ErrorsAfter(Run(policy, ops[..k + 1]).Out(), kept, Run(policy, ops).Out())
  {
    OpenPartIsOpen(policy, ops);
    k := |OpenPart(policy, ops)|;
    Recut(ops, k);
    RunJoins(policy, ops[..k], ops[k]);
    kept := OnlyErrorsFollow(policy, ops[..k + 1], ops[k + 1..]);
  }

  lemma Recut(ops: seq<Op>, k: nat)
    requires k < |ops|
    ensures ops[..k + 1] == ops[..k] + [ops[k]] && ops[..k + 1] + ops[k + 1..] == ops
  {}

  /**
    Every run that ever gives `Finished` was closed by one of the two ways with nothing withheld; what
    the reader has is what it had then, and errors after it if the accumulator was driven on.
   */
  lemma FinishedRun(policy: Policy, ops: seq<Op>) returns (k: nat)
    requires HasFinished(Run(policy, ops).Out())
    ensures k < |ops| && OpenPart(policy, ops) == ops[..k] && !Run(policy, ops[..k]).state.closed
    ensures Ends(policy, Run(policy, ops[..k]).state, ops[k]) && !Withheld(policy, Run(policy, ops[..k]).state)
    ensures Run(policy, ops[..k + 1]).Out() <= Run(policy, ops).Out()
    ensures AllErrors(Run(policy, ops).Out()[|Run(policy, ops[..k + 1]).Out()|..])
  {
    if !Run(policy, ops).state.closed {
      OpenHasNotFinished(policy, ops);
    }
    var kept;
    k, kept := ClosedRun(policy, ops);
    OpenHasNotFinished(policy, ops[..k]);
    OpenIsInBounds(policy, ops[..k]);
    ClosingStepFinishes(policy, Run(policy, ops[..k]), ops[k]);
    var first, out := Run(policy, ops[..k + 1]).Out(), Run(policy, ops).Out();
    FinishedSurvives(first, kept, out);
  }

  lemma FinishedSurvives(first: seq<Event<Stored>>, kept: nat, out: seq<Event<Stored>>)
    requires ErrorsAfter(first, kept, out) && HasFinished(out)
    requires FinishesLast(first) || !HasFinished(first)
    ensures FinishesLast(first) && kept == |first| && first <= out && AllErrors(out[|first|..])
  {
    var e :| e in out && e.Finished?;
    var j :| 0 <= j < |out| && out[j] == e;
    assert out[kept..] == out[kept..|out|];
    if kept <= j {
      ErrorAt(out, kept, j);
    }
    assert out[..kept][j] == first[..kept][j] == first[j] && first[j] in first;
    FinishedOnlyLast(first, j);
    assert first[..kept] == first;
  }

  lemma ErrorAt(events: seq<Event<Stored>>, kept: nat, j: nat)
    requires kept <= j < |events| && AllErrors(events[kept..])
    ensures events[j].Error?
  {
    assert events[kept..][j - kept] == events[j];
  }

  lemma FinishedOnlyLast(events: seq<Event<Stored>>, j: nat)
    requires j < |events| && events[j].Finished? && (FinishesLast(events) || !HasFinished(events))
    ensures j == |events| - 1 && FinishesLast(events)
  {
    assert events[j] in events;
    var init := events[..|events| - 1];
    assert forall k | 0 <= k < |init| :: init[k] == events[k] && init[k] in init;
  }
}
