/** A signed replay and what the reader was told: the same text, and the same calls with the same arguments. */
module ToldReplay {
  import opened Wrappers
  import opened Stream
  import opened AnthropicStream
  import opened AnthropicAccumulator
  import opened AnthropicStreamProofs
  import opened StreamEndings
  import opened HeldArguments
  import opened SignedReplay
  import opened ReplayInput

  // ---- what was said -------------------------------------------------------------------------------------

  /** A reply's text, joined, and the calls it makes, each by id and name. */
  datatype Said = Said(text: string, calls: seq<(string, string)>) {
    function Then(next: Said): Said {
      Said(text + next.text, calls + next.calls)
    }
  }

  const NOTHING := Said("", [])

  lemma ThenRegroups(a: Said, b: Said, c: Said)
    ensures a.Then(b).Then(c) == a.Then(b.Then(c)) && a.Then(NOTHING) == a && NOTHING.Then(a) == a
  {
    Regrouped(a.text, b.text, c.text);
    NothingMore(a.text);
  }

  /** What the reader takes from one event; a fragment of arguments announces no call. */
  function HeardFrom(event: Event<Stored>): Said {
    match event
    case TextDelta(text) => Said(text, [])
    case CallDelta(_, Some(id), Some(name), _) => Said("", [(id, name)])
    case _ => NOTHING
  }

  function Heard(events: seq<Event<Stored>>): Said {
    if events == [] then NOTHING else Heard(events[..|events| - 1]).Then(HeardFrom(events[|events| - 1]))
  }

  /** What one block of a replay says; a call that cannot be named is none. */
  function SaidBy(block: Stored): Said {
    match block.kind
    case TextBlock => Said(block.text.Or("", t => t), [])
    case ToolUseBlock =>
      if block.id != "" && block.name.Some? && ValidName(block.name.value) then Said("", [(block.id, block.name.value)])
      else NOTHING
    case _ => NOTHING
  }

  function SaidIn(blocks: seq<Stored>): Said {
    if blocks == [] then NOTHING else SaidIn(blocks[..|blocks| - 1]).Then(SaidBy(blocks[|blocks| - 1]))
  }

  lemma HeardNext(events: seq<Event<Stored>>, event: Event<Stored>)
    ensures Heard(events + [event]) == Heard(events).Then(HeardFrom(event))
  {
    assert (events + [event])[..|events|] == events;
  }

  lemma SaidNext(blocks: seq<Stored>, block: Stored)
    ensures SaidIn(blocks + [block]) == SaidIn(blocks).Then(SaidBy(block))
  {
    assert (blocks + [block])[..|blocks|] == blocks;
  }

  lemma {:induction false} HeardJoins(a: seq<Event<Stored>>, b: seq<Event<Stored>>)
    ensures Heard(a + b) == Heard(a).Then(Heard(b))
  {
    if b == [] {
      NothingMore(a);
      ThenRegroups(Heard(a), NOTHING, NOTHING);
    } else {
      var init, last := b[..|b| - 1], b[|b| - 1];
      assert b == init + [last];
      HeardJoins(a, init);
      Regrouped(a, init, [last]);
      HeardNext(a + init, last);
      HeardNext(init, last);
      ThenRegroups(Heard(a), Heard(init), HeardFrom(last));
    }
  }

  lemma {:induction false} SilentSaysNothing(events: seq<Event<Stored>>)
    requires forall e <- events :: HeardFrom(e) == NOTHING
    ensures Heard(events) == NOTHING
  {
    if events != [] {
      assert events[|events| - 1] in events;
      SilentSaysNothing(events[..|events| - 1]);
    }
  }

  /** What a step adds to the queue it adds to everything the reader has. */
  lemma HeardAfter(taken: seq<Event<Stored>>, before: seq<Event<Stored>>, after: seq<Event<Stored>>, more: Said)
    requires Heard(after) == Heard(before).Then(more)
    ensures Heard(taken + after) == Heard(taken + before).Then(more)
  {
    HeardJoins(taken, before);
    HeardJoins(taken, after);
    ThenRegroups(Heard(taken), Heard(before), more);
  }

  // ---- frames in index order -----------------------------------------------------------------------------

  datatype Latest = NoBlock | Started(slot: nat, kind: Kind)

  function NextLatest(latest: Latest, frame: Frame): Latest {
    match frame.body
    case BlockStart(Some(Opened(block, _))) => Started(frame.Slot(), block.kind)
    case _ => latest
  }

  /** The block started last. */
  function LatestOf(frames: seq<Frame>): Latest {
    if frames == [] then NoBlock else NextLatest(LatestOf(frames[..|frames| - 1]), frames[|frames| - 1])
  }

  /** A block starts above those before it, and text arrives for the text block started last. */
  predicate FrameInOrder(latest: Latest, frame: Frame) {
    match frame.body
    case BlockStart(Some(Opened(_, _))) => latest.NoBlock? || latest.slot < frame.Slot()
    case BlockDelta(Some(Fragment(TextField, Some(_)))) => latest == Started(frame.Slot(), TextBlock)
    case _ => true
  }

  predicate InOrder(frames: seq<Frame>) {
    frames != [] ==>
      InOrder(frames[..|frames| - 1]) && FrameInOrder(LatestOf(frames[..|frames| - 1]), frames[|frames| - 1])
  }

  lemma OneFrameInOrder(frames: seq<Frame>, frame: Frame)
    ensures LatestOf(frames + [frame]) == NextLatest(LatestOf(frames), frame)
    ensures InOrder(frames + [frame]) <==> InOrder(frames) && FrameInOrder(LatestOf(frames), frame)
  {
    assert (frames + [frame])[..|frames|] == frames;
  }

  // ---- blocks in key order -------------------------------------------------------------------------------

  /** Two blocks that say the same. */
  predicate SayAlike(a: map<nat, Stored>, b: map<nat, Stored>) {
    a.Keys == b.Keys && forall k <- a :: SaidBy(a[k]) == SaidBy(b[k])
  }

  lemma {:induction false} AlikeBelow(a: map<nat, Stored>, b: map<nat, Stored>, end: nat)
    requires SayAlike(a, b)
    ensures SaidIn(ValuesBelow(a, end)) == SaidIn(ValuesBelow(b, end))
  {
    if end != 0 {
      AlikeBelow(a, b, end - 1);
      if end - 1 in a {
        SaidNext(ValuesBelow(a, end - 1), a[end - 1]);
        SaidNext(ValuesBelow(b, end - 1), b[end - 1]);
      } else {
        NothingMore(ValuesBelow(a, end - 1));
        NothingMore(ValuesBelow(b, end - 1));
      }
    }
  }

  lemma {:induction false} SameBelow(a: map<nat, Stored>, b: map<nat, Stored>, end: nat)
    requires forall k: nat | k < end :: k in a <==> k in b
    requires forall k: nat | k < end && k in a :: a[k] == b[k]
    ensures ValuesBelow(a, end) == ValuesBelow(b, end)
  {
    if end != 0 {
      SameBelow(a, b, end - 1);
    }
  }

  /** The blocks of a map whose highest key is `top`, with that one last. */
  lemma TopIsLast(blocks: map<nat, Stored>, top: nat)
    requires top in blocks && top <= U32_MAX && forall k <- blocks :: k <= top
    ensures SaidIn(ValuesBelow(blocks, U32_MAX + 1)) == SaidIn(ValuesBelow(blocks, top)).Then(SaidBy(blocks[top]))
  {
    NoValuesBetween(blocks, top + 1, U32_MAX + 1);
    SaidNext(ValuesBelow(blocks, top), blocks[top]);
  }

  lemma NewTop(blocks: map<nat, Stored>, top: nat, block: Stored)
    requires top <= U32_MAX && forall k <- blocks :: k < top
    ensures SaidIn(ValuesBelow(blocks[top := block], U32_MAX + 1))
         == SaidIn(ValuesBelow(blocks, U32_MAX + 1)).Then(SaidBy(block))
  {
    NoValuesBetween(blocks, top, U32_MAX + 1);
    SameBelow(blocks, blocks[top := block], top);
    TopIsLast(blocks[top := block], top);
  }

  lemma GrownTop(blocks: map<nat, Stored>, top: nat, text: string)
    requires top in blocks && top <= U32_MAX && blocks[top].kind == TextBlock && forall k <- blocks :: k <= top
    ensures SaidIn(ValuesBelow(blocks[top := blocks[top].Append(TextField, text)], U32_MAX + 1))
         == SaidIn(ValuesBelow(blocks, U32_MAX + 1)).Then(Said(text, []))
  {
    var grown := blocks[top := blocks[top].Append(TextField, text)];
    SameBelow(blocks, grown, top);
    TopIsLast(blocks, top);
    TopIsLast(grown, top);
    ThenRegroups(SaidIn(ValuesBelow(blocks, top)), SaidBy(blocks[top]), Said(text, []));
  }

  // ---- one frame -----------------------------------------------------------------------------------------

  /** What a frame that arrives in order adds, to the reader and to the blocks alike. */
  function Adding(frame: Frame): Said {
    match frame.body
    case BlockStart(Some(Opened(block, _))) => SaidBy(block)
    case BlockDelta(Some(Fragment(TextField, Some(text)))) => Said(text, [])
    case _ => NOTHING
  }

  /** The last started block is there, of its kind, and no block lies above it. */
  predicate AtTop(s: State, latest: Latest) {
    match latest
    case NoBlock => s.blocks == map[]
    case Started(slot, kind) =>
      slot <= U32_MAX && slot in s.blocks && s.blocks[slot].kind == kind && forall k <- s.blocks :: k <= slot
  }

  predicate Adds(s: State, s': State, frame: Frame, latest: Latest) {
    s'.closed
    || (AtTop(s', NextLatest(latest, frame)) && SaidIn(BlocksOf(s')) == SaidIn(BlocksOf(s)).Then(Adding(frame)))
  }

  lemma StoreAdds(policy: Policy, s: State, frame: Frame, latest: Latest)
    requires AtTop(s, latest) && FrameInOrder(latest, frame)
    requires frame.body.BlockStart? && frame.body.opening.Some?
    requires !s.closed
    ensures Adds(s, StoreBlock(policy, s, frame.Slot(), frame.body.opening.value), frame, latest)
  {
    var s' := StoreBlock(policy, s, frame.Slot(), frame.body.opening.value);
    StoreStores(policy, s, frame.Slot(), frame.body.opening.value);
    if !s'.closed {
      StoredAtTop(s, s', frame, latest, frame.body.opening.value.block);
    }
  }

  lemma StoreStores(policy: Policy, s: State, index: nat, opening: Opening)
    requires !s.closed
    ensures var s' := StoreBlock(policy, s, index, opening);
            s'.closed || (opening.Opened? && s'.blocks == s.blocks[index := opening.block])
  {}

  lemma StoredAtTop(s: State, s': State, frame: Frame, latest: Latest, block: Stored)
    requires AtTop(s, latest) && FrameInOrder(latest, frame)
    requires frame.body.BlockStart? && frame.body.opening.Some? && frame.body.opening.value.Opened?
    requires block == frame.body.opening.value.block && s'.blocks == s.blocks[frame.Slot() := block]
    ensures Adds(s, s', frame, latest)
  {
    NewTop(s.blocks, frame.Slot(), block);
  }

  /** A step that leaves what every block says, and its kind, as it was. */
  predicate Unsaid(s: State, s': State) {
    SayAlike(s.blocks, s'.blocks) && forall k <- s.blocks :: s'.blocks[k].kind == s.blocks[k].kind
  }

  lemma UnsaidAddsNothing(s: State, s': State, frame: Frame, latest: Latest)
    requires AtTop(s, latest) && Unsaid(s, s') && Adding(frame) == NOTHING && NextLatest(latest, frame) == latest
    ensures Adds(s, s', frame, latest)
  {
    AlikeBelow(s.blocks, s'.blocks, U32_MAX + 1);
    ThenRegroups(SaidIn(BlocksOf(s)), NOTHING, NOTHING);
  }

  lemma AbsorbAdds(policy: Policy, s: State, frame: Frame, latest: Latest)
    requires AtTop(s, latest) && FrameInOrder(latest, frame)
    requires frame.body.BlockDelta? && frame.body.delta.Some?
    ensures Adds(s, AbsorbDelta(policy, s, frame.Slot(), frame.body.delta.value), frame, latest)
  {
    var delta := frame.body.delta.value;
    var s' := AbsorbDelta(policy, s, frame.Slot(), delta);
    if !s'.closed {
      if delta.Fragment? && delta.field == TextField && delta.text.Some? {
        GrownTop(s.blocks, frame.Slot(), delta.text.value);
      } else {
        AbsorbLeavesUnsaid(policy, s, frame.Slot(), delta);
        UnsaidAddsNothing(s, s', frame, latest);
      }
    }
  }

  lemma AbsorbLeavesUnsaid(policy: Policy, s: State, index: nat, delta: Delta)
    requires delta.Fragment? && delta.field == TextField ==> delta.text.None?
    ensures var s' := AbsorbDelta(policy, s, index, delta); s'.closed || Unsaid(s, s')
  {}

  lemma SealLeavesUnsaid(policy: Policy, s: State, index: nat)
    ensures var s' := SealBlock(policy, s, index); s'.closed || Unsaid(s, s')
  {}

  lemma BoundedAdds(policy: Policy, s: State, s': State, frame: Frame, latest: Latest)
    requires Adds(s, s', frame, latest)
    ensures Adds(s, Bounded(policy, s'), frame, latest)
  {}

  lemma ReplayAdds(policy: Policy, s: State, frame: Frame, latest: Latest)
    requires !s.closed && AtTop(s, latest) && FrameInOrder(latest, frame)
    ensures Adds(s, ObserveReplay(policy, s, frame), frame, latest)
  {
    match frame.body
    case BlockStart(Some(_)) => StoreAdds(policy, s, frame, latest);
    case BlockDelta(Some(delta)) =>
      AbsorbAdds(policy, s, frame, latest);
      BoundedAdds(policy, s, AbsorbDelta(policy, s, frame.Slot(), delta), frame, latest);
    case BlockStop =>
      var s' := SealBlock(policy, s, frame.Slot());
      SealLeavesUnsaid(policy, s, frame.Slot());
      if !s'.closed {
        UnsaidAddsNothing(s, s', frame, latest);
      }
      BoundedAdds(policy, s, s', frame, latest);
    case _ =>
      UnsaidAddsNothing(s, s, frame, latest);
      BoundedAdds(policy, s, s, frame, latest);
  }

  lemma TellSays(s: State, event: Option<Event<Stored>>)
    ensures Heard(s.Tell(event).ready)
         == Heard(s.ready).Then(if event.None? then NOTHING else HeardFrom(event.value))
  {
    if event.Some? {
      HeardNext(s.ready, event.value);
    } else {
      ThenRegroups(Heard(s.ready), NOTHING, NOTHING);
    }
  }

  lemma StartSays(policy: Policy, s: State, frame: Frame, block: Stored)
    requires frame.body.BlockStart? && frame.body.opening.Some? && frame.body.opening.value.Opened?
    requires block == frame.body.opening.value.block && !s.closed
    ensures var s' := ObserveStart(policy, s, frame.Slot(), block);
            s'.closed || (s'.blocks == s.blocks && Heard(s'.ready) == Heard(s.ready).Then(Adding(frame)))
  {
    if block.kind == ToolUseBlock {
      TellSays(s, Some(CallEvent(frame.Slot(), block)));
    } else {
      var event := if block.kind == TextBlock then Told(block.text, false)
                   else if block.kind == ThinkingBlock then Told(block.thinking, true)
                   else None;
      TellSays(s, event);
      assert SaidBy(block) == if event.None? then NOTHING else HeardFrom(event.value);
    }
  }

  lemma DeltaSays(s: State, frame: Frame, delta: Delta)
    requires frame.body == BlockDelta(Some(delta))
    ensures var s' := ObserveDelta(s, frame.Slot(), delta);
            s'.blocks == s.blocks && Heard(s'.ready) == Heard(s.ready).Then(Adding(frame))
  {
    TellSays(s, DeltaEvent(frame.Slot() in s.held, frame.Slot(), delta));
  }

  lemma ReleaseSays(s: State, at: nat)
    ensures Release(s, at).blocks == s.blocks && Heard(Release(s, at).ready) == Heard(s.ready)
  {
    ThenRegroups(Heard(s.ready), NOTHING, NOTHING);
    if at in s.held {
      TellSays(s.(held := s.held - {at}), Some(CallDelta(at, None, None, s.held[at].Released())));
    }
  }

  lemma DispatchSays(policy: Policy, s: State, frame: Frame)
    requires !s.closed && !Dispatch(policy, s, frame).closed
    ensures var s' := Dispatch(policy, s, frame);
            s'.blocks == s.blocks && Heard(s'.ready) == Heard(s.ready).Then(Adding(frame))
  {
    ThenRegroups(Heard(s.ready), NOTHING, NOTHING);
    match frame.body
    case BlockStart(Some(Opened(block, _))) => StartSays(policy, s, frame, block);
    case BlockDelta(Some(delta)) => DeltaSays(s, frame, delta);
    case BlockStop => ReleaseSays(s, frame.Slot());
    case MessageStop => CloseProceeds(policy, s);
    case _ =>
  }

  lemma LimitSaysNothing(policy: Policy, s: State, frame: Frame)
    requires !s.closed
    ensures var s' := LimitFrame(policy, s, frame); s'.closed || (s'.blocks == s.blocks && s'.ready == s.ready)
  {}

  /** What the reader was told is what the blocks say. */
  predicate Agree(x: Session, latest: Latest) {
    AtTop(x.state, latest) && Heard(x.Out()) == SaidIn(BlocksOf(x.state))
  }

  lemma FrameAgrees(policy: Policy, x: Session, frame: Frame, latest: Latest)
    requires !x.state.closed && !Observe(policy, x.state, frame).closed
    requires Agree(x, latest) && FrameInOrder(latest, frame)
    ensures Agree(x.(state := Observe(policy, x.state, frame)), NextLatest(latest, frame))
  {
    var limited := if policy.arguments == [] then x.state else LimitFrame(policy, x.state, frame);
    var kept := ObserveReplay(policy, limited, frame);
    LimitSaysNothing(policy, x.state, frame);
    ReplayAdds(policy, limited, frame, latest);
    ObserveReplayFails(policy, limited, frame);
    DispatchSays(policy, kept, frame);
    HeardAfter(x.taken, x.state.ready, Observe(policy, x.state, frame).ready, Adding(frame));
  }

  lemma GarbledAgrees(x: Session, latest: Latest)
    requires Agree(x, latest)
    ensures Agree(x.(state := x.state.Push(Error(NotJson))), latest)
  {
    HeardNext(x.state.ready, Error(NotJson));
    HeardAfter(x.taken, x.state.ready, x.state.Push(Error(NotJson)).ready, NOTHING);
    ThenRegroups(Heard(x.Out()), NOTHING, NOTHING);
  }

  lemma StepAgrees(policy: Policy, x: Session, op: Op, frames: seq<Frame>)
    requires !x.state.closed && !Do(policy, x, op).state.closed
    requires Agree(x, LatestOf(frames)) && InOrder(frames + FrameOf(op))
    ensures Agree(Do(policy, x, op), LatestOf(frames + FrameOf(op)))
  {
    NothingMore(frames);
    match op
    case Taken => TakingKeepsEverything(policy, x);
    case Closing => CloseProceeds(policy, x.state);
    case Failing(why) => FailFails(policy, x.state, why);
    case Observed(Garbled) => GarbledAgrees(x, LatestOf(frames));
    case Observed(Decoded(frame)) =>
      OneFrameInOrder(frames, frame);
      FrameAgrees(policy, x, frame, LatestOf(frames));
  }

  lemma InOrderBefore(frames: seq<Frame>, op: Op)
    requires InOrder(frames + FrameOf(op))
    ensures InOrder(frames)
  {
    NothingMore(frames);
    if FrameOf(op) != [] {
      OneFrameInOrder(frames, FrameOf(op)[0]);
    }
  }

  /** At every point of an open stream whose frames arrive in index order, the two agree. */
  lemma {:induction false} ToldIsKept(policy: Policy, ops: seq<Op>)
    requires !Run(policy, ops).state.closed && InOrder(FramesOf(ops))
    ensures Agree(Run(policy, ops), LatestOf(FramesOf(ops)))
  {
    if ops == [] {
      NothingHeld(FRESH, U32_MAX + 1);
    } else {
      var n := |ops| - 1;
      var x, frames := Run(policy, ops[..n]), FramesOf(ops[..n]);
      if x.state.closed {
        StaysClosed(policy, x, ops[n]);
      }
      InOrderBefore(frames, ops[n]);
      ToldIsKept(policy, ops[..n]);
      StepAgrees(policy, x, ops[n], frames);
    }
  }

  // ---- the end -------------------------------------------------------------------------------------------

  lemma SilentEnd(a: seq<Event<Stored>>, b: seq<Event<Stored>>)
    requires a <= b && forall e <- b[|a|..] :: HeardFrom(e) == NOTHING
    ensures Heard(b) == Heard(a)
  {
    assert b == a + b[|a|..];
    HeardJoins(a, b[|a|..]);
    SilentSaysNothing(b[|a|..]);
    ThenRegroups(Heard(a), NOTHING, NOTHING);
  }

  lemma ReleasingSaysNothing(s: State, end: nat)
    ensures Heard(ReleaseBelow(s, end).ready) == Heard(s.ready)
  {
    var silent := (t: State, n: nat) => Heard(t.ready) == Heard(s.ready);
    forall t: State, n: nat | silent(t, n) ensures silent(Release(t, n), n + 1) {
      ReleaseSays(t, n);
    }
    ReleaseInduction(s, end, silent);
  }

  lemma ConcludeSaysNothing(s: State)
    ensures Heard(Conclude(s).ready) == Heard(s.ready)
  {
    SilentEnd(s.ready, Conclude(s).ready);
  }

  lemma CloseSaysNothing(policy: Policy, s: State)
    requires !s.closed && !Withheld(policy, s)
    ensures Heard(Close(policy, s).ready) == Heard(s.ready)
  {
    ReleasingSaysNothing(s, U32_MAX + 1);
    ReleaseKeepsCounts(s, U32_MAX + 1);
    DeliverSaysNothing(policy, Released(s), BlocksOf(s));
  }

  lemma DeliverSaysNothing(policy: Policy, s: State, blocks: seq<Stored>)
    requires s.void || !HasThinking(blocks) || (!HasUnsigned(blocks) && Fits(policy, blocks))
    ensures Heard(Deliver(policy, s, blocks).ready) == Heard(s.ready)
  {
    var replayed := s.Push(AssistantReplay(blocks));
    SilentEnd(s.ready, replayed.ready);
    ConcludeSaysNothing(replayed);
    ConcludeSaysNothing(s);
  }

  /**
    Of every run that gave `Finished`, when the frames it saw while open start their blocks in index
    order and bring text to the block started last: the text the reader was told, joined, is the text
    of the blocks, joined, and the calls announced are the blocks' usable calls, in order. So a signed
    replay that was given says what the reader was told.
   */
  lemma ReplaySaysWhatWasTold(policy: Policy, ops: seq<Op>)
    requires HasFinished(Run(policy, ops).Out()) && InOrder(FramesOf(OpenPart(policy, ops)))
    ensures Heard(Run(policy, ops).Out()) == SaidIn(BlocksOf(Run(policy, OpenPart(policy, ops)).state))
    ensures forall blocks :: AssistantReplay(blocks) in Run(policy, ops).Out() ==>
              Heard(Run(policy, ops).Out()) == SaidIn(blocks)
  {
    var k := FinishedRun(policy, ops);
    Recut(ops, k);
    var x, closed, out := Run(policy, ops[..k]), Run(policy, ops[..k + 1]).Out(), Run(policy, ops).Out();
    ToldIsKept(policy, ops[..k]);
    EitherWayCloses(policy, ops[..k], ops[k]);
    CloseSaysNothing(policy, x.state);
    HeardJoins(x.taken, x.state.ready);
    HeardJoins(x.taken, Close(policy, x.state).ready);
    SilentEnd(closed, out);
    forall blocks | AssistantReplay(blocks) in out ensures Heard(out) == SaidIn(blocks) {
      ReplayMeansNoOverflow(policy, ops, blocks);
    }
  }

  // ---- the arguments of one call -------------------------------------------------------------------------

  lemma {:induction false} OwnOfMine(frames: seq<Frame>, index: nat)
    ensures Own(Mine(frames, index), index) == Own(frames, index)
  {
    if frames != [] {
      var init, last := frames[..|frames| - 1], frames[|frames| - 1];
      OwnOfMine(init, index);
      if Touches(last, index) {
        assert (Mine(init, index) + [last])[..|Mine(init, index)|] == Mine(init, index);
      } else {
        NothingMore(Mine(init, index));
        NothingMore(Own(init, index));
      }
    }
  }

  lemma MineDelivers(policy: Policy, frames: seq<Frame>, index: nat)
    ensures DeliveredBy(policy, frames, index) == DeliveredBy(policy, Mine(frames, index), index)
    ensures CellAfter(policy, frames, index) == CellAfter(policy, Mine(frames, index), index)
  {
    OwnOfMine(frames, index);
    OnlyOwnFramesMatter(policy, frames, index);
    OnlyOwnFramesMatter(policy, Mine(frames, index), index);
  }

  /** A call of a tool without a limit streams its fragments through. */
  lemma {:induction false} StreamsThrough(policy: Policy, start: Frame, fragments: seq<Frame>, index: nat)
    requires start.Slot() == index && start.OpensCall() && !OpensLimited(policy, start)
    requires AllFragments(fragments, index)
    ensures CellAfter(policy, [start] + fragments, index) == Idle
    ensures DeliveredBy(policy, [start] + fragments, index) == Concat(Fragments(fragments))
  {
    if fragments == [] {
      NothingMore([start]);
      OneFrameMore(policy, [], start, index);
    } else {
      var n := |fragments| - 1;
      var init, last := fragments[..n], fragments[n];
      assert last in fragments && fragments == init + [last];
      StreamsThrough(policy, start, init, index);
      Regrouped([start], init, [last]);
      OneFrameMore(policy, [start] + init, last, index);
      OneFragmentMore(init, last);
    }
  }

  lemma WholeIsDelivered(policy: Policy, start: Frame, fragments: seq<Frame>, stop: Frame, index: nat)
    requires start.Slot() == stop.Slot() == index && start.OpensCall() && stop.body.BlockStop?
    requires AllFragments(fragments, index)
    requires Within(policy, start.body.opening.value.block, Concat(Fragments(fragments)))
    ensures DeliveredBy(policy, [start] + fragments + [stop], index) == Concat(Fragments(fragments))
    ensures CellAfter(policy, [start] + fragments + [stop], index) == Idle
  {
    if OpensLimited(policy, start) {
      OneCallDelivers(policy, start, fragments, stop, index);
    } else {
      StreamsThrough(policy, start, fragments, index);
      OneFrameMore(policy, [start] + fragments, stop, index);
      NothingMore(Concat(Fragments(fragments)));
    }
  }

  /**
    In a run that gave `Finished`, a call opened once and stopped within its limit, limited or not: the
    arguments the reader was given are its fragments, joined, and its block's input is those very
    arguments, parsed, or its opening input when no fragment came.
   */
  lemma ReplayedInputIsWhatWasTold(
      policy: Policy, ops: seq<Op>, start: Frame, fragments: seq<Frame>, stop: Frame, index: nat)
    requires HasFinished(Run(policy, ops).Out())
    requires Mine(FramesOf(OpenPart(policy, ops)), index) == [start] + fragments + [stop]
    requires start.Slot() == stop.Slot() == index && start.OpensCall() && stop.body.BlockStop?
    requires AllTexts(fragments, index)
    requires Within(policy, start.body.opening.value.block, Concat(Fragments(fragments)))
    ensures var s, told := Run(policy, OpenPart(policy, ops)).state, Delivered(Run(policy, ops).Out(), index);
            && told == Concat(Fragments(fragments)) && index in s.blocks
            && s.blocks[index].input
               == (if fragments == [] then start.body.opening.value.block.input else Parsed(policy, told))
  {
    var frames := FramesOf(OpenPart(policy, ops));
    ReplayedInputIsTheWhole(policy, ops, start, fragments, stop, index);
    FinishedDelivers(policy, ops, index);
    MineDelivers(policy, frames, index);
    WholeIsDelivered(policy, start, fragments, stop, index);
    NothingMore(Concat(Fragments(fragments)));
  }
}
