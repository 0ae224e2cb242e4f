/** What the reader of a response body has once the body has finished. */
module ResponseEndings {
  import opened Wrappers
  import opened Stream
  import opened AnthropicStream
  import opened AnthropicStreamProofs
  import opened StreamEndings
  import opened HeldArguments
  import opened SignedReplay
  import opened Response

  // ---- a body as a run of the accumulator ----------------------------------------------------------

  function FramesIn(lines: seq<Line>): seq<Frame> {
    if lines == [] then []
    else
      var last := lines[|lines| - 1];
      FramesIn(lines[..|lines| - 1]) + if last.Decoded? then [last.frame] else []
  }

  function PollFrames(poll: Poll): seq<Frame> {
    match poll
    case Chunk(Some(lines), _) => FramesIn(lines)
    case Ended(LastLine(line)) => FramesIn([line])
    case _ => []
  }

  /** Every frame of a body, in order. */
  function BodyFrames(polls: seq<Poll>): seq<Frame> {
    if polls == [] then [] else PollFrames(polls[0]) + BodyFrames(polls[1..])
  }

  /** A direct close never happens under response limits. */
  predicate ClosesAsAllowed(policy: Policy, ops: seq<Op>) {
    policy.limits.Some? ==> Closing !in ops
  }

  /** `ops` brings the accumulator to `x`, having observed `frames`. */
  predicate Leads(policy: Policy, ops: seq<Op>, x: Session, frames: seq<Frame>) {
    Run(policy, ops) == x && FramesOf(ops) == frames && ClosesAsAllowed(policy, ops)
  }

  lemma OneOpMore(policy: Policy, ops: seq<Op>, x: Session, frames: seq<Frame>, op: Op)
    requires Leads(policy, ops, x, frames) && ClosesAsAllowed(policy, [op])
    ensures Leads(policy, ops + [op], Do(policy, x, op), frames + FrameOf(op))
  {
    RunJoins(policy, ops, op);
    assert (ops + [op])[..|ops|] == ops;
  }

  lemma {:induction false} LinesAreARun(policy: Policy, ops: seq<Op>, x: Session, frames: seq<Frame>, lines: seq<Line>)
    returns (ops': seq<Op>)
    requires Leads(policy, ops, x, frames)
    ensures Leads(policy, ops', x.(state := Lines(policy, x.state, lines)), frames + FramesIn(lines))
  {
    if lines == [] {
      ops' := ops;
      NothingMore(frames);
    } else {
      var n := |lines| - 1;
      var init := LinesAreARun(policy, ops, x, frames, lines[..n]);
      OneOpMore(policy, init, x.(state := Lines(policy, x.state, lines[..n])), frames + FramesIn(lines[..n]),
                Observed(lines[n]));
      Regrouped(frames, FramesIn(lines[..n]), FrameOf(Observed(lines[n])));
      ops' := init + [Observed(lines[n])];
    }
  }

  lemma FinishIsARun(policy: Policy, ops: seq<Op>, x: Session, frames: seq<Frame>) returns (ops': seq<Op>)
    requires Leads(policy, ops, x, frames)
    ensures Leads(policy, ops', x.(state := Response.Finish(policy, x.state)), frames)
  {
    if x.state.closed {
      ops' := ops;
    } else {
      var op := if policy.limits.Some? then Failing(Unterminated) else Closing;
      OneOpMore(policy, ops, x, frames, op);
      NothingMore(frames);
      ops' := ops + [op];
    }
  }

  lemma FailIsARun(policy: Policy, ops: seq<Op>, x: Session, frames: seq<Frame>, why: Trouble) returns (ops': seq<Op>)
    requires Leads(policy, ops, x, frames)
    ensures Leads(policy, ops', x.(state := x.state.Fail(policy, why)), frames)
  {
    OneOpMore(policy, ops, x, frames, Failing(why));
    NothingMore(frames);
    ops' := ops + [Failing(why)];
  }

  lemma OneLine(policy: Policy, s: State, line: Line)
    ensures Lines(policy, s, [line]) == ObserveLine(policy, s, line)
  {
    assert [line][..0] == [];
  }

  lemma AnswerIsARun(policy: Policy, ops: seq<Op>, x: Session, frames: seq<Frame>, poll: Poll) returns (ops': seq<Op>)
    requires Leads(policy, ops, x, frames)
    ensures Leads(policy, ops', x.(state := After(policy, x.state, poll)), frames + PollFrames(poll))
  {
    NothingMore(frames);
    match poll
    case Chunk(None, done) =>
      ops' := FailIsARun(policy, ops, x, frames, Framing);
    case Chunk(Some(lines), done) =>
      ops' := LinesAreARun(policy, ops, x, frames, lines);
      var seen := Lines(policy, x.state, lines);
      if seen.closed || done {
        ops' := FinishIsARun(policy, ops', x.(state := seen), frames + FramesIn(lines));
      }
    case Broken =>
      ops' := FailIsARun(policy, ops, x, frames, Transport);
    case Ended(NoTail) =>
      ops' := FinishIsARun(policy, ops, x, frames);
    case Ended(LastLine(line)) =>
      OneLine(policy, x.state, line);
      ops' := LinesAreARun(policy, ops, x, frames, [line]);
      ops' := FinishIsARun(policy, ops', x.(state := Lines(policy, x.state, [line])), frames + FramesIn([line]));
    case Ended(Torn) =>
      ops' := FailIsARun(policy, ops, x, frames, Framing);
  }

  lemma {:induction false} TakingAllIsARun(
      policy: Policy, ops: seq<Op>, x: Session, frames: seq<Frame>) returns (ops': seq<Op>)
    requires Leads(policy, ops, x, frames)
    ensures Leads(policy, ops', Session(x.state.(ready := []), x.taken + x.state.ready), frames)
    decreases |x.state.ready|
  {
    var ready := x.state.ready;
    if ready == [] {
      ops' := ops;
      NothingMore(x.taken);
      assert x.state.(ready := []) == x.state;
    } else {
      OneOpMore(policy, ops, x, frames, Taken);
      NothingMore(frames);
      ops' := TakingAllIsARun(policy, ops + [Taken], Do(policy, x, Taken), frames);
      Regrouped(x.taken, [ready[0]], ready[1..]);
      assert ready == [ready[0]] + ready[1..];
    }
  }

  /** Reading a body is a run of the accumulator over the body's frames, as far as they are read. */
  lemma {:induction false} PlayIsARun(policy: Policy, ops: seq<Op>, x: Session, frames: seq<Frame>, polls: seq<Poll>)
    returns (ops': seq<Op>, read: seq<Frame>)
    requires Leads(policy, ops, x, frames) && !x.state.closed && x.state.ready == []
    ensures read <= BodyFrames(polls) && FramesOf(ops') == frames + read && ClosesAsAllowed(policy, ops')
    ensures Run(policy, ops').Out() == x.taken + Play(policy, x.state, polls).0
    decreases |polls|
  {
    if polls == [] {
      ops', read := ops, [];
      NothingMore(frames);
    } else {
      var answered := AnswerIsARun(policy, ops, x, frames, polls[0]);
      var s', first := After(policy, x.state, polls[0]), PollFrames(polls[0]);
      if s'.closed {
        ops', read := answered, first;
      } else {
        var taken := TakingAllIsARun(policy, answered, x.(state := s'), frames + first);
        var next := Session(s'.(ready := []), x.taken + s'.ready);
        var rest;
        ops', rest := PlayIsARun(policy, taken, next, frames + first, polls[1..]);
        read := first + rest;
        Regrouped(frames, first, rest);
        Regrouped(x.taken, s'.ready, Play(policy, next.state, polls[1..]).0);
      }
    }
  }

  // ---- a body that finished ------------------------------------------------------------------------

  lemma {:induction false} FramesGrow(ops: seq<Op>, k: nat)
    requires k <= |ops|
    ensures FramesOf(ops[..k]) <= FramesOf(ops)
    decreases |ops|
  {
    if k == |ops| {
      assert ops[..k] == ops;
    } else {
      assert ops[..|ops| - 1][..k] == ops[..k];
      FramesGrow(ops[..|ops| - 1], k);
    }
  }

  lemma FramesThrough(ops: seq<Op>, k: nat)
    requires k < |ops|
    ensures FramesOf(ops[..k]) + FrameOf(ops[k]) <= FramesOf(ops)
  {
    FramesGrow(ops, k + 1);
    Recut(ops, k);
    FramesJoin(ops[..k], ops[k]);
  }

  lemma FramesJoin(ops: seq<Op>, op: Op)
    ensures FramesOf(ops + [op]) == FramesOf(ops) + FrameOf(op)
  {
    assert (ops + [op])[..|ops|] == ops;
  }

  /**
    Every body that finishes, however it is cut into answers: there is a first part of its frames —
    under response limits, everything before a `message_stop` the body holds — such that the reader
    has, for every block, exactly the argument text those frames deliver, each limited call judged as
    a whole; and has one signed replay exactly when none of those calls passed its limit and the
    blocks of those frames hold thinking.
   */
  lemma FinishedBody(policy: Policy, polls: seq<Poll>) returns (frames: seq<Frame>, ops: seq<Op>)
    requires HasFinished(Play(policy, FRESH, polls).0)
    ensures frames <= BodyFrames(polls) && FramesOf(ops) == frames && !Run(policy, ops).state.closed
    ensures policy.limits.Some? ==> |frames| < |BodyFrames(polls)| && BodyFrames(polls)[|frames|].body.MessageStop?
    ensures forall index: nat | index <= U32_MAX ::
              Delivered(Play(policy, FRESH, polls).0, index)
              == DeliveredBy(policy, frames, index) + Owed(CellAfter(policy, frames, index))
    ensures var blocks := BlocksOf(Run(policy, ops).state);
            Replays(Play(policy, FRESH, polls).0, !Overflowed(policy, frames) && HasThinking(blocks), blocks)
  {
    var events := Play(policy, FRESH, polls).0;
    assert Leads(policy, [], Session(FRESH, []), []);
    var all, read := PlayIsARun(policy, [], Session(FRESH, []), [], polls);
    NothingMore(events);
    NothingMore(read);
    var k := FinishedRun(policy, all);
    ops := all[..k];
    frames := FramesOf(ops);
    FramesThrough(all, k);
    assert frames <= frames + FrameOf(all[k]);
    assert policy.limits.Some? ==> all[k] in all;
    forall index: nat | index <= U32_MAX
      ensures Delivered(events, index) == DeliveredBy(policy, frames, index) + Owed(CellAfter(policy, frames, index))
    {
      FinishedDelivers(policy, all, index);
    }
    FinishedSigned(policy, all);
  }
}
