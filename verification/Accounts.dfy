/** The usage a response reports, from the counts of its frames. */
module Accounts {
  import opened Wrappers
  import opened Stream
  import opened AnthropicStream
  import opened AnthropicStreamProofs
  import opened StreamEndings
  import opened SignedReplay

  // ---- what is counted -----------------------------------------------------------------------------

  function NextCounts(counts: Counts, frame: Frame): Counts {
    match frame.body
    case MessageStart(Some(usage)) => Raise(counts, usage)
    case MessageDelta(Some(output), _) => counts.(output := Larger(counts.output, Number(output)))
    case _ => counts
  }

  /** The largest of each count the frames report. */
  function CountsOf(frames: seq<Frame>): Counts {
    if frames == [] then Counts(0, 0, 0, 0)
    else NextCounts(CountsOf(frames[..|frames| - 1]), frames[|frames| - 1])
  }

  lemma AbsorbKeepsCounts(policy: Policy, s: State, index: nat, delta: Delta)
    ensures AbsorbDelta(policy, s, index, delta).tokens == s.tokens
  {}

  lemma StoreKeepsCounts(policy: Policy, s: State, index: nat, opening: Opening)
    ensures StoreBlock(policy, s, index, opening).tokens == s.tokens
  {}

  lemma SealKeepsCounts(policy: Policy, s: State, index: nat)
    ensures SealBlock(policy, s, index).tokens == s.tokens
  {}

  lemma ReplayKeepsCounts(policy: Policy, s: State, frame: Frame)
    ensures ObserveReplay(policy, s, frame).tokens == s.tokens
  {
    match frame.body
    case BlockStart(Some(opening)) => StoreKeepsCounts(policy, s, frame.Slot(), opening);
    case BlockDelta(Some(delta)) => AbsorbKeepsCounts(policy, s, frame.Slot(), delta);
    case BlockStop => SealKeepsCounts(policy, s, frame.Slot());
    case _ =>
  }

  lemma LimitKeepsCounts(policy: Policy, s: State, frame: Frame)
    ensures LimitFrame(policy, s, frame).tokens == s.tokens
  {}

  lemma DispatchCounts(policy: Policy, s: State, frame: Frame)
    requires !s.closed && !Dispatch(policy, s, frame).closed
    ensures Dispatch(policy, s, frame).tokens == NextCounts(s.tokens, frame)
  {
    if frame.body.MessageStop? {
      CloseProceeds(policy, s);
    }
  }

  lemma ObserveCounts(policy: Policy, s: State, frame: Frame)
    requires !s.closed && !Observe(policy, s, frame).closed
    ensures Observe(policy, s, frame).tokens == NextCounts(s.tokens, frame)
  {
    var limited := if policy.arguments == [] then s else LimitFrame(policy, s, frame);
    LimitKeepsCounts(policy, s, frame);
    ReplayKeepsCounts(policy, limited, frame);
    DispatchCounts(policy, ObserveReplay(policy, limited, frame), frame);
  }

  lemma OneFrameCounts(frames: seq<Frame>, frame: Frame)
    ensures CountsOf(frames + [frame]) == NextCounts(CountsOf(frames), frame)
  {
    assert (frames + [frame])[..|frames|] == frames;
  }

  /** An open stream has counted what its frames report, whatever else they do. */
  lemma {:induction false} OpenCounts(policy: Policy, ops: seq<Op>)
    requires !Run(policy, ops).state.closed
    ensures Run(policy, ops).state.tokens == CountsOf(FramesOf(ops))
  {
    if ops != [] {
      var n := |ops| - 1;
      var x, op, frames := Run(policy, ops[..n]), ops[n], FramesOf(ops[..n]);
      if x.state.closed {
        StaysClosed(policy, x, op);
      }
      OpenCounts(policy, ops[..n]);
      NothingMore(frames);
      match op
      case Observed(Decoded(frame)) =>
        OneFrameCounts(frames, frame);
        ObserveCounts(policy, x.state, frame);
      case Closing => CloseProceeds(policy, x.state);
      case Failing(why) => FailFails(policy, x.state, why);
      case Taken =>
      case Observed(Garbled) =>
    }
  }

  datatype Which = Input | Read | Creation | Output

  function Pick(counts: Counts, which: Which): nat {
    match which
    case Input => counts.input
    case Read => counts.read
    case Creation => counts.creation
    case Output => counts.output
  }

  /** What one frame reports of a count: the start reports all four, a later frame the output. */
  function ReportedBy(frame: Frame, which: Which): seq<nat> {
    match frame.body
    case MessageStart(Some(usage)) => [Pick(usage, which)]
    case MessageDelta(Some(output), _) => if which == Output then [output] else []
    case _ => []
  }

  function Reported(frames: seq<Frame>, which: Which): seq<nat> {
    if frames == [] then []
    else Reported(frames[..|frames| - 1], which) + ReportedBy(frames[|frames| - 1], which)
  }

  /** `n` is the largest of the numbers that fit a `u32`, and zero when there is none. */
  predicate IsLargest(n: nat, numbers: seq<nat>) {
    && (n == 0 || (n in numbers && n <= U32_MAX))
    && forall number <- numbers :: number <= U32_MAX ==> number <= n
  }

  lemma OneNumberMore(n: nat, numbers: seq<nat>, number: nat)
    requires IsLargest(n, numbers)
    ensures IsLargest(Larger(n, Number(number)), numbers + [number])
  {
    assert (numbers + [number])[|numbers|] == number;
    assert forall k <- numbers :: k in numbers + [number];
  }

  /** Each count is the largest the frames report for it, whatever their order. */
  lemma {:induction false} CountsAreTheLargest(frames: seq<Frame>, which: Which)
    ensures IsLargest(Pick(CountsOf(frames), which), Reported(frames, which))
  {
    if frames != [] {
      var before, frame := frames[..|frames| - 1], frames[|frames| - 1];
      CountsAreTheLargest(before, which);
      if ReportedBy(frame, which) == [] {
        NothingMore(Reported(before, which));
      } else {
        OneNumberMore(Pick(CountsOf(before), which), Reported(before, which), ReportedBy(frame, which)[0]);
      }
    }
  }

  /** What the reader is told of the counts: what was read from the cache is a hit, the rest of the input a miss. */
  lemma AccountingMeans(counts: Counts)
    ensures var usage := Accounting(counts);
            && usage.prompt == Min(U32_MAX, counts.input + counts.read + counts.creation)
            && usage.completion == counts.output && usage.reasoning == 0
            && usage.hit == counts.read && usage.miss == Min(U32_MAX, counts.input + counts.creation)
  {}

  // ---- what is reported ----------------------------------------------------------------------------

  predicate NoSpent(events: seq<Event<Stored>>) {
    forall e <- events :: !e.Spent?
  }

  /** The usages among `events` are exactly one, `usage`, or there are none. */
  predicate Reports(events: seq<Event<Stored>>, reported: bool, usage: Usage) {
    && (reported <==> Spent(usage) in events)
    && forall e <- events :: e.Spent? ==> reported && e == Spent(usage)
  }

  lemma ReportsJoin(a: seq<Event<Stored>>, reported: bool, usage: Usage, b: seq<Event<Stored>>)
    requires NoSpent(b)
    ensures Reports(a + b, reported, usage) <==> Reports(a, reported, usage)
    ensures Reports(b + a, reported, usage) <==> Reports(a, reported, usage)
  {
    assert forall k | 0 <= k < |a| :: a[k] == (a + b)[k] == (b + a)[|b| + k];
    assert forall k | 0 <= k < |b| :: b[k] == (a + b)[|a| + k] == (b + a)[k];
  }

  /** Whether there is any usage to report. */
  predicate Counted(counts: Counts) {
    0 < Saturated(Accounting(counts).prompt, Accounting(counts).completion)
  }

  lemma PushReports(s: State, event: Event<Stored>, reported: bool, usage: Usage)
    requires Reports(s.ready, reported, usage) && !event.Spent?
    ensures Reports(s.Push(event).ready, reported, usage)
  {
    ReportsJoin(s.ready, reported, usage, [event]);
  }

  lemma ConcludeReports(s: State)
    requires NoSpent(s.ready)
    ensures Reports(Conclude(s).ready, Counted(s.tokens), Accounting(s.tokens))
  {
    var usage := Accounting(s.tokens);
    var told := if Counted(s.tokens) then s.Push(Spent(usage)) else s;
    if Counted(s.tokens) {
      assert Reports([Spent(usage)], true, usage);
      ReportsJoin([Spent(usage)], true, usage, s.ready);
    }
    PushReports(told, Finished(s.finish.Or(Stop, reason => reason)), Counted(s.tokens), usage);
  }

  lemma ReleasedReportsNothing(s: State)
    requires Midway(s.ready)
    ensures NoSpent(Released(s).ready) && Released(s).void == s.void && Released(s).tokens == s.tokens
  {
    ReleaseBelowReleases(s, U32_MAX + 1);
    ReleaseKeepsCounts(s, U32_MAX + 1);
    var ready := Released(s).ready;
    assert ready == s.ready + ready[|s.ready|..];
  }

  /** Closing reports the usage, once, unless it fails or there is none. */
  lemma CloseReports(policy: Policy, s: State)
    requires !s.closed && Midway(s.ready)
    ensures Reports(Close(policy, s).ready, !Withheld(policy, s) && Counted(s.tokens), Accounting(s.tokens))
  {
    var r, blocks := Released(s), BlocksOf(s);
    ReleasedReportsNothing(s);
    if Withheld(policy, s) {
      PushReports(r, Error(Unsigned), false, Accounting(s.tokens));
      PushReports(r, Error(ReplayTooLarge), false, Accounting(s.tokens));
    } else if Signs(policy, s) {
      PushReports(r, AssistantReplay(blocks), false, Accounting(s.tokens));
      ConcludeReports(r.Push(AssistantReplay(blocks)));
    } else {
      ConcludeReports(r);
    }
  }

  lemma ClosedReports(policy: Policy, x: Session, op: Op)
    requires !x.state.closed && InBounds(x.state) && Midway(x.Out()) && Do(policy, x, op).state.closed
    ensures exists reported :: Reports(Do(policy, x, op).Out(), reported, Accounting(x.state.tokens))
  {
    var usage := Accounting(x.state.tokens);
    MidwayParts(x.taken, x.state.ready);
    if Ends(policy, x.state, op) {
      EndCloses(policy, x, op);
      CloseReports(policy, x.state);
      var reported := !Withheld(policy, x.state) && Counted(x.state.tokens);
      ReportsJoin(Close(policy, x.state).ready, reported, usage, x.taken);
      assert Reports(Do(policy, x, op).Out(), reported, usage);
    } else {
      OtherClosingFails(policy, x, op);
      FailureReportsNothing(policy, x.taken, x.state, Do(policy, x, op).state);
      assert Reports(Do(policy, x, op).Out(), false, usage);
    }
  }

  lemma FailureReportsNothing(policy: Policy, taken: seq<Event<Stored>>, s: State, s': State)
    requires FailsOrNot(policy, s, s') && NoSpent(taken) && NoSpent(s.ready)
    ensures NoSpent(taken + s'.ready)
  {
    if s'.ready != s.ready && !Cleared(policy, s') {
      assert s'.ready == s.ready + s'.ready[|s.ready|..];
    }
  }

  /**
    Over every run of every operation: a usage the reader has is the accounting of the counts the
    frames reported while the stream was open.
   */
  lemma ReportedIsTheAccounting(policy: Policy, ops: seq<Op>, usage: Usage)
    requires Spent(usage) in Run(policy, ops).Out()
    ensures usage == Accounting(CountsOf(FramesOf(OpenPart(policy, ops))))
  {
    if !Run(policy, ops).state.closed {
      OpenIsMidway(policy, ops);
    }
    var k, kept := ClosedRun(policy, ops);
    Recut(ops, k);
    OpenIsMidway(policy, ops[..k]);
    OpenIsInBounds(policy, ops[..k]);
    OpenCounts(policy, ops[..k]);
    ReplaySurvives(Spent(usage), Run(policy, ops[..k + 1]).Out(), kept, Run(policy, ops).Out());
    ClosedReports(policy, Run(policy, ops[..k]), ops[k]);
  }

  /** A run that gave `Finished` has reported that accounting exactly once, unless it comes to nothing. */
  lemma FinishedReports(policy: Policy, ops: seq<Op>)
    requires HasFinished(Run(policy, ops).Out())
    ensures var counts := CountsOf(FramesOf(OpenPart(policy, ops)));
            Reports(Run(policy, ops).Out(), Counted(counts), Accounting(counts))
  {
    var k := FinishedRun(policy, ops);
    var counts := CountsOf(FramesOf(ops[..k]));
    Recut(ops, k);
    ClosingReportsCounts(policy, ops[..k], ops[k]);
    ErrorsReportNothing(Run(policy, ops[..k + 1]).Out(), Run(policy, ops).Out(), Counted(counts), Accounting(counts));
  }

  lemma ClosingReportsCounts(policy: Policy, ops: seq<Op>, end: Op)
    requires !Run(policy, ops).state.closed && Ends(policy, Run(policy, ops).state, end)
    requires !Withheld(policy, Run(policy, ops).state)
    ensures var counts := CountsOf(FramesOf(ops));
            Reports(Run(policy, ops + [end]).Out(), Counted(counts), Accounting(counts))
  {
    var x := Run(policy, ops);
    EitherWayCloses(policy, ops, end);
    OpenIsMidway(policy, ops);
    MidwayParts(x.taken, x.state.ready);
    OpenCounts(policy, ops);
    CloseReports(policy, x.state);
    ReportsJoin(Close(policy, x.state).ready, Counted(x.state.tokens), Accounting(x.state.tokens), x.taken);
  }

  lemma ErrorsReportNothing(first: seq<Event<Stored>>, out: seq<Event<Stored>>, reported: bool, usage: Usage)
    requires first <= out && AllErrors(out[|first|..]) && Reports(first, reported, usage)
    ensures Reports(out, reported, usage)
  {
    assert out == first + out[|first|..];
    ReportsJoin(first, reported, usage, out[|first|..]);
  }

  // ---- whether it partitions the prompt --------------------------------------------------------------

  predicate Partitions(usage: Usage) {
    usage.hit + usage.miss == usage.prompt
  }

  lemma AccountingPartitions(counts: Counts)
    ensures Partitions(Accounting(counts))
            <==> counts.input + counts.read + counts.creation <= U32_MAX || counts.read == 0
  {}

  /**
    Over every run of every operation: of a usage the reader has, the two cache counters partition the
    prompt exactly when the three counts its frames reported fit a `u32` together, or nothing was read
    from the cache.
   */
  lemma PartitionExactlyWhen(policy: Policy, ops: seq<Op>, usage: Usage)
    requires Spent(usage) in Run(policy, ops).Out()
    ensures var counts := CountsOf(FramesOf(OpenPart(policy, ops)));
            Partitions(usage) <==> counts.input + counts.read + counts.creation <= U32_MAX || counts.read == 0
  {
    ReportedIsTheAccounting(policy, ops, usage);
    AccountingPartitions(CountsOf(FramesOf(OpenPart(policy, ops))));
  }

  /** A response that starts with such counts and then stops. */
  const START: Frame := Frame(Absent, MessageStart(Some(Counts(U32_MAX, 1, 0, 0))), 0)
  const STOP: Frame := Frame(Absent, MessageStop, 0)

  /** So it is not an invariant of what is reported: two frames that saturate the prompt break it. */
  lemma PartitionCanFail(policy: Policy)
    ensures exists usage :: Spent(usage) in Run(policy, [Observed(Decoded(START)), Observed(Decoded(STOP))]).Out()
                            && !Partitions(usage)
  {
    var first, last := [Observed(Decoded(START))], Observed(Decoded(STOP));
    assert first + [last] == [Observed(Decoded(START)), Observed(Decoded(STOP))];
    StartCounts(policy);
    EitherWayCloses(policy, first, last);
    ClosingReports(policy, Run(policy, first).state);
    AccountingPartitions(Counts(U32_MAX, 1, 0, 0));
  }

  lemma StartCounts(policy: Policy)
    ensures Run(policy, [Observed(Decoded(START))]) == Session(FRESH.(tokens := Counts(U32_MAX, 1, 0, 0)), [])
  {
    assert [Observed(Decoded(START))][..0] == [];
  }

  /** A stream with no blocks that has counted tokens reports their accounting when it closes. */
  lemma ClosingReports(policy: Policy, s: State)
    requires !s.closed && s.held == map[] && s.blocks == map[]
    requires 0 < Accounting(s.tokens).prompt
    ensures Spent(Accounting(s.tokens)) in Close(policy, s).ready
  {
    NothingHeld(s, U32_MAX + 1);
    assert Close(policy, s) == Conclude(s.(closed := true));
  }
}
