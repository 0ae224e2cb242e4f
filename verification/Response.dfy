/** The poll loop that turns an HTTP body into events. */
module Response {
  import opened Wrappers
  import opened Stream
  import opened AnthropicStream
  import opened AnthropicStreamProofs
  import opened AnthropicAccumulator
  import opened StreamEndings

  /** What the framer holds when the body ends. */
  datatype Tail = NoTail | LastLine(line: Line) | Torn

  /**
    One answer of the body: bytes, which the framer turns into lines (or refuses) and after which it
    may have seen the sentinel; a transport error; or the end.
   */
  datatype Poll = Chunk(lines: Option<seq<Line>>, done: bool) | Broken | Ended(tail: Tail)

  // ---- what the loop means -------------------------------------------------------------------------

  function Lines(policy: Policy, s: State, lines: seq<Line>): State {
    if lines == [] then s else ObserveLine(policy, Lines(policy, s, lines[..|lines| - 1]), lines[|lines| - 1])
  }

  /** Under response limits a body that ends on its own is an error. */
  function Finish(policy: Policy, s: State): State {
    if s.closed then s
    else if policy.limits.Some? then s.Fail(policy, Unterminated)
    else Close(policy, s)
  }

  /** The accumulator after one answer. */
  function After(policy: Policy, s: State, poll: Poll): State {
    match poll
    case Chunk(lines, done) =>
      var seen := if lines.None? then s.Fail(policy, Framing) else Lines(policy, s, lines.value);
      if seen.closed || done then Finish(policy, seen) else seen
    case Broken => s.Fail(policy, Transport)
    case Ended(tail) =>
      Finish(policy, match tail
                     case NoTail => s
                     case LastLine(line) => ObserveLine(policy, s, line)
                     case Torn => s.Fail(policy, Framing))
  }

  /** The events of the answers, from an accumulator whose queue is empty, and whether they end the stream. */
  function Play(policy: Policy, s: State, polls: seq<Poll>): (seq<Event<Stored>>, bool)
    decreases |polls|
  {
    if polls == [] then ([], false)
    else
      var s' := After(policy, s, polls[0]);
      if s'.closed then (s'.ready, true)
      else
        var rest := Play(policy, s'.(ready := []), polls[1..]);
        (s'.ready + rest.0, rest.1)
  }

  /** Everything the loop will have given, from what it gave already and what is left. */
  function Total(policy: Policy, given: seq<Event<Stored>>, s: State, polls: seq<Poll>): (seq<Event<Stored>>, bool) {
    if s.closed then (given + s.ready, true)
    else
      var rest := Play(policy, s.(ready := []), polls);
      (given + s.ready + rest.0, rest.1)
  }

  lemma TotalAtFirst(policy: Policy, polls: seq<Poll>)
    ensures Total(policy, [], FRESH, polls) == Play(policy, FRESH, polls)
  {
    var rest := Play(policy, FRESH, polls);
    assert [] + FRESH.ready + rest.0 == rest.0;
  }

  lemma TotalAfterTaking(policy: Policy, given: seq<Event<Stored>>, s: State, polls: seq<Poll>)
    requires s.ready != []
    ensures Total(policy, given, s, polls)
         == Total(policy, given + [s.ready[0]], s.(ready := s.ready[1..]), polls)
  {
    Regrouped(given, [s.ready[0]], s.ready[1..]);
    assert s.ready == [s.ready[0]] + s.ready[1..];
  }

  lemma TotalAfterAnswer(policy: Policy, given: seq<Event<Stored>>, s: State, s': State, polls: seq<Poll>)
    requires s.ready == [] && !s.closed && polls != [] && s' == After(policy, s, polls[0])
    ensures Total(policy, given, s, polls) == Total(policy, given, s', polls[1..])
  {
    assert s.(ready := []) == s;
    NothingMore(given);
    if !s'.closed {
      Regrouped(given, s'.ready, Play(policy, s'.(ready := []), polls[1..]).0);
    }
  }

  // ---- the loop ------------------------------------------------------------------------------------

  lemma {:induction false} ClosedIgnoresLines(policy: Policy, s: State, lines: seq<Line>, from: nat)
    requires policy.limits.Some? && from <= |lines| && Lines(policy, s, lines[..from]).closed
    ensures Lines(policy, s, lines) == Lines(policy, s, lines[..from])
    decreases |lines|
  {
    if from == |lines| {
      assert lines[..from] == lines;
    } else {
      assert lines[..|lines| - 1][..from] == lines[..from];
      ClosedIgnoresLines(policy, s, lines[..|lines| - 1], from);
    }
  }

  method ObserveLines(accumulator: StreamAccumulator, lines: seq<Line>)
    modifies accumulator
    ensures accumulator.View() == Lines(accumulator.policy, old(accumulator.View()), lines)
  {
    ghost var before := accumulator.View();
    var i := 0;
    while i < |lines|
      invariant i <= |lines|
      invariant accumulator.View() == Lines(accumulator.policy, before, lines[..i])
    {
      accumulator.ObserveLine(lines[i]);
      assert lines[..i + 1][..i] == lines[..i];
      i := i + 1;
      if accumulator.policy.limits.Some? && accumulator.closed {
        ClosedIgnoresLines(accumulator.policy, before, lines, i);
        return;
      }
    }
    assert lines[..i] == lines;
  }

  method FinishBody(accumulator: StreamAccumulator, terminal: bool)
    requires terminal == accumulator.closed
    modifies accumulator
    ensures accumulator.View() == Finish(accumulator.policy, old(accumulator.View())) && accumulator.closed
  {
    if accumulator.closed {
      return;
    }
    if accumulator.policy.limits.Some? && !terminal {
      accumulator.Fail(Unterminated);
    } else {
      accumulator.Close();
    }
  }

  /** Handles one answer; `more` says whether the body is still read. */
  method Answer(accumulator: StreamAccumulator, poll: Poll) returns (more: bool)
    requires !accumulator.closed
    modifies accumulator
    ensures accumulator.View() == After(accumulator.policy, old(accumulator.View()), poll)
    ensures more <==> !accumulator.closed
  {
    more := true;
    match poll {
      case Chunk(lines, done) =>
        match lines {
          case Some(decoded) => ObserveLines(accumulator, decoded);
          case None => accumulator.Fail(Framing);
        }
        var terminal := accumulator.closed;
        if accumulator.closed || done || (accumulator.policy.limits.Some? && terminal) {
          FinishBody(accumulator, terminal);
          more := false;
        }
      case Broken =>
        accumulator.Fail(Transport);
        more := false;
      case Ended(tail) =>
        match tail {
          case LastLine(line) => accumulator.ObserveLine(line);
          case NoTail =>
          case Torn => accumulator.Fail(Framing);
        }
        var terminal := accumulator.closed;
        FinishBody(accumulator, terminal);
        more := false;
    }
  }

  /** Reads the body to its end, or as far as the answers go: every event is taken before the next answer. */
  method Decode(policy: Policy, polls: seq<Poll>) returns (events: seq<Event<Stored>>, ended: bool)
    ensures (events, ended) == Play(policy, FRESH, polls)
  {
    var accumulator := new StreamAccumulator(policy);
    var open, i := true, 0;
    events := [];
    TotalAtFirst(policy, polls);
    assert polls[0..] == polls;
    while true
      invariant i <= |polls| && accumulator.policy == policy && open == !accumulator.closed
      invariant Play(policy, FRESH, polls) == Total(policy, events, accumulator.View(), polls[i..])
      invariant fresh(accumulator)
      decreases |polls| - i, open, |accumulator.ready|
    {
      ghost var before := accumulator.View();
      var event := accumulator.TakeReady();
      if event.Some? {
        TotalAfterTaking(policy, events, before, polls[i..]);
        events := events + [event.value];
        continue;
      }
      if !open {
        NothingMore(events);
        return events, true;
      }
      if i == |polls| {
        NothingMore(events);
        return events, false;
      }
      open := Answer(accumulator, polls[i]);
      TotalAfterAnswer(policy, events, before, accumulator.View(), polls[i..]);
      assert polls[i..][1..] == polls[i + 1..];
      i := i + 1;
    }
  }

  // ---- how a body ends -----------------------------------------------------------------------------

  lemma {:induction false} LinesKeep(policy: Policy, x: Session, lines: seq<Line>)
    requires EndsAtMostOnce(x) && EndsTerminal(x)
    ensures var x' := x.(state := Lines(policy, x.state, lines));
            && EndsAtMostOnce(x') && EndsTerminal(x')
            && (policy.limits.Some? && Orderly(x) ==> Orderly(x'))
  {
    if lines != [] {
      var n := |lines| - 1;
      LinesKeep(policy, x, lines[..n]);
      Step(policy, x.(state := Lines(policy, x.state, lines[..n])), Observed(lines[n]));
    }
  }

  lemma Step(policy: Policy, x: Session, op: Op)
    requires EndsAtMostOnce(x) && EndsTerminal(x) && (op.Failing? ==> !x.state.closed)
    ensures var x' := Do(policy, x, op);
            && EndsAtMostOnce(x') && EndsTerminal(x')
            && (policy.limits.Some? && Orderly(x) ==> Orderly(x'))
  {
    EndsAtMostOnceKeeps(policy, x, op);
    EndsTerminalKeeps(policy, x, op);
    if policy.limits.Some? && Orderly(x) {
      OrderlyKeeps(policy, x, op);
    }
  }

  lemma FinishKeeps(policy: Policy, x: Session)
    requires EndsAtMostOnce(x) && EndsTerminal(x)
    ensures var x' := x.(state := Finish(policy, x.state));
            && EndsAtMostOnce(x') && EndsTerminal(x')
            && (policy.limits.Some? && Orderly(x) ==> Orderly(x'))
  {
    if !x.state.closed {
      Step(policy, x, if policy.limits.Some? then Failing(Unterminated) else Closing);
    }
  }

  lemma AfterKeeps(policy: Policy, x: Session, poll: Poll)
    requires EndsAtMostOnce(x) && EndsTerminal(x) && !x.state.closed
    ensures var x' := x.(state := After(policy, x.state, poll));
            && EndsAtMostOnce(x') && EndsTerminal(x')
            && (policy.limits.Some? && Orderly(x) ==> Orderly(x'))
  {
    match poll
    case Chunk(lines, done) =>
      var seen := if lines.None? then x.state.Fail(policy, Framing) else Lines(policy, x.state, lines.value);
      if lines.None? {
        Step(policy, x, Failing(Framing));
      } else {
        LinesKeep(policy, x, lines.value);
      }
      FinishKeeps(policy, x.(state := seen));
    case Broken => Step(policy, x, Failing(Transport));
    case Ended(NoTail) => FinishKeeps(policy, x);
    case Ended(LastLine(line)) =>
      Step(policy, x, Observed(line));
      FinishKeeps(policy, Do(policy, x, Observed(line)));
    case Ended(Torn) =>
      Step(policy, x, Failing(Framing));
      FinishKeeps(policy, Do(policy, x, Failing(Framing)));
  }

  /** How the events of a body may end. */
  predicate EndsWell(policy: Policy, events: seq<Event<Stored>>, ended: bool) {
    && Endings(events) <= 1
    && (ended ==> events != [] && events[|events| - 1].Terminal())
    && (policy.limits.Some? ==> if ended then EndsOnce(events) else NoneTerminal(events))
  }

  /** Between two answers: open, with everything given. */
  predicate Between(policy: Policy, given: seq<Event<Stored>>, s: State) {
    && !s.closed && s.ready == [] && Endings(given) == 0
    && (policy.limits.Some? ==> NoneTerminal(given))
  }

  lemma AnswerKeeps(policy: Policy, given: seq<Event<Stored>>, s: State, poll: Poll)
    requires Between(policy, given, s)
    ensures var s' := After(policy, s, poll);
            && (s'.closed ==> EndsWell(policy, given + s'.ready, true))
            && (!s'.closed ==> Between(policy, given + s'.ready, s'.(ready := [])))
  {
    var x := Session(s, given);
    assert x.Out() == given;
    AfterKeeps(policy, x, poll);
  }

  lemma {:induction false} PlayKeeps(policy: Policy, given: seq<Event<Stored>>, s: State, polls: seq<Poll>)
    requires Between(policy, given, s)
    ensures EndsWell(policy, given + Play(policy, s, polls).0, Play(policy, s, polls).1)
    decreases |polls|
  {
    if polls == [] {
      NothingMore(given);
    } else {
      AnswerKeeps(policy, given, s, polls[0]);
      var s' := After(policy, s, polls[0]);
      if !s'.closed {
        PlayKeeps(policy, given + s'.ready, s'.(ready := []), polls[1..]);
        Regrouped(given, s'.ready, Play(policy, s'.(ready := []), polls[1..]).0);
      }
    }
  }

  /**
    However a body is cut into answers, it gives at most one `Finished`, and if it ends its last event
    is terminal. Under response limits that event is the only terminal one.
   */
  lemma OneTerminalOutcome(policy: Policy, polls: seq<Poll>)
    ensures var (events, ended) := Play(policy, FRESH, polls);
            && Endings(events) <= 1
            && (ended ==> events != [] && events[|events| - 1].Terminal())
            && (policy.limits.Some? ==> if ended then EndsOnce(events) else NoneTerminal(events))
  {
    PlayKeeps(policy, [], FRESH, polls);
    var events := Play(policy, FRESH, polls).0;
    assert [] + events == events;
  }

  /** Without response limits a body may report an error and then finish all the same. */
  lemma WithoutLimitsBothCanAppear(policy: Policy)
    requires policy.limits.None?
    ensures Play(policy, FRESH, [Chunk(Some([Garbled]), false), Ended(NoTail)])
         == ([Error(NotJson), Finished(Stop)], true)
  {
    var chunk, end := Chunk(Some([Garbled]), false), Ended(NoTail);
    var told := FRESH.Push(Error(NotJson));
    assert [Garbled][..0] == [];
    assert Lines(policy, FRESH, [Garbled]) == ObserveLine(policy, Lines(policy, FRESH, []), Garbled);
    assert After(policy, FRESH, chunk) == told;
    ClosingNothing(policy, FRESH);
    assert After(policy, FRESH, end).ready == [Finished(Stop)];
    assert [chunk, end][1..] == [end];
    assert Play(policy, FRESH, [end]) == ([Finished(Stop)], true);
    assert told.(ready := []) == FRESH && told.ready == [Error(NotJson)];
    assert Play(policy, FRESH, [chunk, end]) == (told.ready + Play(policy, FRESH, [end]).0, true);
    var both: seq<Event<Stored>> := [Error(NotJson), Finished(Stop)];
    assert told.ready + Play(policy, FRESH, [end]).0 == both;
  }

  lemma ClosingNothing(policy: Policy, s: State)
    requires s == FRESH
    ensures Close(policy, s) == s.(closed := true, ready := [Finished(Stop)])
  {
    NothingHeld(s, U32_MAX + 1);
  }
}
