/** How a chat-completions body ends: the poll loop over the accumulator that waits for its end. */
module DeepSeekResponse {
  import opened Wrappers
  import opened Stream
  import opened DeepSeekStream
  import opened DeepSeekCalls

  /** What the framer holds when the body ends. */
  datatype Tail = NoTail | LastLine(line: Line) | Torn

  /** One answer of the body; `done` says that the framer has seen the sentinel by then. */
  datatype Poll = Chunk(lines: Option<seq<Line>>, done: bool) | Broken | Ended(tail: Tail, done: bool)

  function Lines(policy: Policy, s: State, lines: seq<Line>): State {
    if lines == [] then s else ObserveLine(policy, Lines(policy, s, lines[..|lines| - 1]), lines[|lines| - 1])
  }

  /** Under response limits a body that ends before the sentinel is an error. */
  function Finish(policy: Policy, s: State, done: bool): State {
    if s.closed then s
    else if policy.limits.Some? && !done then s.Fail(policy, Unterminated)
    else Close(policy, s)
  }

  /** The accumulator after one answer. */
  function After(policy: Policy, s: State, poll: Poll): State {
    match poll
    case Chunk(lines, done) =>
      var seen := if lines.None? then s.Fail(policy, Framing) else Lines(policy, s, lines.value);
      if seen.closed || done then Finish(policy, seen, done) else seen
    case Broken => s.Fail(policy, Transport)
    case Ended(tail, done) =>
      Finish(policy, match tail
                     case NoTail => s
                     case LastLine(line) => ObserveLine(policy, s, line)
                     case Torn => s.Fail(policy, Framing), done)
  }

  /** The events of the answers, from an accumulator whose queue is empty, and whether they end the stream. */
  function Play(policy: Policy, s: State, polls: seq<Poll>): (seq<Told>, bool)
    decreases |polls|
  {
    if polls == [] then ([], false)
    else
      var s' := After(policy, s, polls[0]);
      if s'.closed then (s'.ready, true)
      else
        var rest := Play(policy, s'.(ready := []), polls[1..]);
        (s'.ready + rest.0, rest.1)
  }

  // ---- one step --------------------------------------------------------------------------------------

  /** Events an open stream may give: none ends it, and under response limits none is terminal. */
  predicate Quiet(policy: Policy, events: seq<Told>) {
    Endings(events) == 0 && (policy.limits.Some? ==> NoneTerminal(events))
  }

  /** Events of a stream that has ended. */
  predicate Ends(policy: Policy, events: seq<Told>) {
    && Endings(events) <= 1 && events != [] && events[|events| - 1].Terminal()
    && (policy.limits.Some? ==> EndsOnce(events))
  }

  /** A stream, after the events already `given`. */
  predicate Sound(policy: Policy, given: seq<Told>, s: State) {
    if s.closed then Ends(policy, given + s.ready) else Quiet(policy, given + s.ready)
  }

  lemma NotTerminalEndsNothing(events: seq<Told>)
    requires NoneTerminal(events)
    ensures Endings(events) == 0
  {
    if events != [] {
      assert events[|events| - 1] in events;
      NotTerminalEndsNothing(events[..|events| - 1]);
    }
  }

  lemma QuietJoins(policy: Policy, a: seq<Told>, b: seq<Told>)
    ensures Quiet(policy, a + b) <==> Quiet(policy, a) && Quiet(policy, b)
  {
    EndingsJoin(a, b);
    assert forall k | 0 <= k < |a| :: a[k] == (a + b)[k];
    assert forall k | 0 <= k < |b| :: b[k] == (a + b)[|a| + k];
  }

  /** Quiet events and one terminal one. */
  lemma QuietThenLast(policy: Policy, events: seq<Told>, last: Told)
    requires Quiet(policy, events) && last.Terminal()
    ensures Ends(policy, events + [last])
  {
    assert (events + [last])[..|events|] == events;
  }

  lemma FailEnds(policy: Policy, given: seq<Told>, s: State, why: Trouble)
    requires !s.closed && Sound(policy, given, s)
    ensures Sound(policy, given, s.Fail(policy, why)) && s.Fail(policy, why).closed
  {
    QuietJoins(policy, given, s.ready);
    QuietThenLast(policy, given, Error(why));
    QuietThenLast(policy, given + s.ready, Error(why));
    Regrouped(given, s.ready, [Error(why)]);
  }

  lemma QuietAdds(policy: Policy, given: seq<Told>, s: State, more: seq<Told>)
    requires Quiet(policy, given + s.ready) && Quiet(policy, more)
    ensures Quiet(policy, given + (s.ready + more))
  {
    QuietJoins(policy, given + s.ready, more);
    Regrouped(given, s.ready, more);
  }

  lemma {:induction false} CallsKeepSound(policy: Policy, given: seq<Told>, s: State, parts: seq<CallPart>)
    requires !s.closed && Sound(policy, given, s)
    ensures Sound(policy, given, ObserveCalls(policy, s, parts))
    ensures policy.limits.None? ==> !ObserveCalls(policy, s, parts).closed
  {
    if parts != [] {
      var n := |parts| - 1;
      CallsKeepSound(policy, given, s, parts[..n]);
      var before := ObserveCalls(policy, s, parts[..n]);
      if !before.closed && policy.limits.Some? {
        var trouble := CallTrouble(policy.limits.value, before.calls, parts[n]);
        if trouble.Some? {
          FailEnds(policy, given, before, trouble.value);
        }
      }
    }
  }

  lemma SpokenIsQuiet(policy: Policy, frame: Frame)
    ensures Quiet(policy, SaidBy(frame))
  {
    NotTerminalEndsNothing(SaidBy(frame));
  }

  lemma ObserveKeepsSound(policy: Policy, given: seq<Told>, s: State, frame: Frame)
    requires !s.closed && Sound(policy, given, s)
    ensures Sound(policy, given, Observe(policy, s, frame))
    ensures policy.limits.None? ==> !Observe(policy, s, frame).closed
  {
    if policy.limits.Some? && policy.limits.value.eventBytes < frame.size {
      FailEnds(policy, given, s, FrameTooLarge);
    } else if frame.choice.Some? && frame.choice.value.delta.Some? {
      var told := if frame.usage.None? then s else s.(usage := Some(DecodeUsage(frame.usage.value)));
      var choice, delta := frame.choice.value, frame.choice.value.delta.value;
      var noted := if choice.finish.None? then told else told.(finish := Some(DecodeFinish(choice.finish.value)));
      var spoken := noted.(ready := Push(Push(noted.ready, delta.reasoning, true), delta.content, false));
      PushesSpoken(s.ready, delta);
      SpokenIsQuiet(policy, frame);
      QuietAdds(policy, given, s, SaidBy(frame));
      CallsKeepSound(policy, given, spoken, delta.calls);
    }
  }

  lemma PushesSpoken(ready: seq<Told>, delta: Delta)
    ensures Push(Push(ready, delta.reasoning, true), delta.content, false)
              == ready + (Spoken(delta.reasoning, true) + Spoken(delta.content, false))
  {
    PushIsSpoken(ready, delta.reasoning, true);
    PushIsSpoken(Push(ready, delta.reasoning, true), delta.content, false);
    Regrouped(ready, Spoken(delta.reasoning, true), Spoken(delta.content, false));
  }

  /** A line leaves an open stream sound; without response limits it never closes it. */
  lemma LineKeepsSound(policy: Policy, given: seq<Told>, s: State, line: Line)
    requires !s.closed && Sound(policy, given, s)
    ensures Sound(policy, given, ObserveLine(policy, s, line))
    ensures policy.limits.None? ==> !ObserveLine(policy, s, line).closed
  {
    match line
    case Decoded(frame) => ObserveKeepsSound(policy, given, s, frame);
    case Garbled =>
      if policy.limits.Some? {
        FailEnds(policy, given, s, NotJson);
      } else {
        var error: seq<Told> := [Error(NotJson)];
        assert error[..0] == [];
        assert Endings(error) == Endings(error[..0]) + 0;
        QuietAdds(policy, given, s, error);
      }
  }

  lemma {:induction false} LinesKeepSound(policy: Policy, given: seq<Told>, s: State, lines: seq<Line>)
    requires !s.closed && Sound(policy, given, s)
    ensures Sound(policy, given, Lines(policy, s, lines))
    ensures policy.limits.None? ==> !Lines(policy, s, lines).closed
  {
    if lines != [] {
      var n := |lines| - 1;
      LinesKeepSound(policy, given, s, lines[..n]);
      if !Lines(policy, s, lines[..n]).closed {
        LineKeepsSound(policy, given, Lines(policy, s, lines[..n]), lines[n]);
      }
    }
  }

  // ---- closing ---------------------------------------------------------------------------------------

  lemma {:induction false} ReportsAreQuiet(policy: Policy, calls: seq<Partial>)
    requires policy.limits.Some? ==> !exists call <- calls :: Unusable(call)
    ensures Quiet(policy, Reports(calls))
  {
    if calls != [] {
      var n := |calls| - 1;
      assert calls[n] in calls;
      assert forall call <- calls[..n] :: call in calls;
      ReportsAreQuiet(policy, calls[..n]);
      ReportIsQuiet(policy, calls[n], n);
      QuietJoins(policy, Reports(calls[..n]), Report(calls[n], n));
    }
  }

  lemma ReportIsQuiet(policy: Policy, call: Partial, index: nat)
    requires policy.limits.Some? ==> !Unusable(call)
    ensures Quiet(policy, Report(call, index))
  {
    var report := Report(call, index);
    if report != [] {
      assert report[..0] == [];
      assert Endings(report) == Endings(report[..0]) + 0;
    }
  }

  /** Closing an open stream ends it. */
  lemma CloseEndsIt(policy: Policy, given: seq<Told>, s: State)
    requires !s.closed && Sound(policy, given, s)
    ensures Sound(policy, given, Close(policy, s)) && Close(policy, s).closed
  {
    CloseEnds(policy, s);
    if Ending(policy, s).None? {
      FailEnds(policy, given, s, BadCall);
    } else {
      var usage: seq<Told> := if s.usage.None? then [] else [Spent(s.usage.value)];
      var end: Told := Finished(s.finish.Or(Stop, reason => reason));
      ReportsAreQuiet(policy, s.calls);
      NotTerminalEndsNothing(usage);
      QuietJoins(policy, Reports(s.calls), usage);
      QuietAdds(policy, given, s, Reports(s.calls) + usage);
      QuietThenLast(policy, given + (s.ready + (Reports(s.calls) + usage)), end);
      EndingRegroups(given, s.ready, Reports(s.calls), usage, [end]);
    }
  }

  lemma EndingRegroups(given: seq<Told>, ready: seq<Told>, reports: seq<Told>, usage: seq<Told>, end: seq<Told>)
    ensures given + (ready + (reports + usage)) + end == given + (ready + (reports + (usage + end)))
  {
    Regrouped(reports, usage, end);
    Regrouped(ready, reports + usage, end);
    Regrouped(given, ready + (reports + usage), end);
  }

  // ---- one answer, one body --------------------------------------------------------------------------

  lemma FinishKeepsSound(policy: Policy, given: seq<Told>, s: State, done: bool)
    requires Sound(policy, given, s)
    ensures Sound(policy, given, Finish(policy, s, done)) && Finish(policy, s, done).closed
  {
    if !s.closed {
      FailEnds(policy, given, s, Unterminated);
      CloseEndsIt(policy, given, s);
    }
  }

  lemma AnswerKeepsSound(policy: Policy, given: seq<Told>, s: State, poll: Poll)
    requires !s.closed && Sound(policy, given, s)
    ensures Sound(policy, given, After(policy, s, poll))
    ensures !poll.Chunk? ==> After(policy, s, poll).closed
  {
    FailEnds(policy, given, s, Framing);
    match poll
    case Chunk(lines, done) =>
      var seen := if lines.None? then s.Fail(policy, Framing) else Lines(policy, s, lines.value);
      if lines.Some? {
        LinesKeepSound(policy, given, s, lines.value);
      }
      FinishKeepsSound(policy, given, seen, done);
    case Broken => FailEnds(policy, given, s, Transport);
    case Ended(NoTail, done) => FinishKeepsSound(policy, given, s, done);
    case Ended(LastLine(line), done) =>
      LineKeepsSound(policy, given, s, line);
      FinishKeepsSound(policy, given, ObserveLine(policy, s, line), done);
    case Ended(Torn, done) => FinishKeepsSound(policy, given, s.Fail(policy, Framing), done);
  }

  lemma {:induction false} PlayKeepsSound(policy: Policy, given: seq<Told>, s: State, polls: seq<Poll>)
    requires !s.closed && s.ready == [] && Quiet(policy, given)
    ensures var (events, ended) := Play(policy, s, polls);
            if ended then Ends(policy, given + events) else Quiet(policy, given + events)
    decreases |polls|
  {
    NothingMore(given);
    if polls != [] {
      AnswerKeepsSound(policy, given, s, polls[0]);
      var s' := After(policy, s, polls[0]);
      if !s'.closed {
        PlayKeepsSound(policy, given + s'.ready, s'.(ready := []), polls[1..]);
        Regrouped(given, s'.ready, Play(policy, s'.(ready := []), polls[1..]).0);
      }
    }
  }

  /**
    However a body is cut into answers, it gives at most one `Finished`, none before it ends, and if it
    ends its last event is terminal. Under response limits that event is the only terminal one.
   */
  lemma OneTerminalOutcome(policy: Policy, polls: seq<Poll>)
    ensures var (events, ended) := Play(policy, FRESH, polls);
            if ended then
              && Endings(events) <= 1 && events != [] && events[|events| - 1].Terminal()
              && (policy.limits.Some? ==> EndsOnce(events))
            else
              Endings(events) == 0 && (policy.limits.Some? ==> NoneTerminal(events))
  {
    PlayKeepsSound(policy, [], FRESH, polls);
    NothingMore(Play(policy, FRESH, polls).0);
  }

  // ---- a body that breaks ----------------------------------------------------------------------------

  /** The accumulator after the answers, with its events taken, when none of them ended the stream. */
  function Standing(policy: Policy, s: State, polls: seq<Poll>): State
    decreases |polls|
  {
    if polls == [] then s else Standing(policy, After(policy, s, polls[0]).(ready := []), polls[1..])
  }

  lemma {:induction false} PlayJoins(policy: Policy, s: State, polls: seq<Poll>, more: seq<Poll>)
    requires !s.closed && s.ready == [] && !Play(policy, s, polls).1
    ensures !Standing(policy, s, polls).closed && Standing(policy, s, polls).ready == []
    ensures var rest := Play(policy, Standing(policy, s, polls), more);
            Play(policy, s, polls + more) == (Play(policy, s, polls).0 + rest.0, rest.1)
    decreases |polls|
  {
    if polls == [] {
      NothingMore(more);
      NothingMore(Play(policy, s, more).0);
    } else {
      var s' := After(policy, s, polls[0]);
      assert (polls + more)[0] == polls[0] && (polls + more)[1..] == polls[1..] + more;
      PlayJoins(policy, s'.(ready := []), polls[1..], more);
      Regrouped(s'.ready, Play(policy, s'.(ready := []), polls[1..]).0,
                Play(policy, Standing(policy, s'.(ready := []), polls[1..]), more).0);
    }
  }

  /** Why an answer breaks the body: the transport failed, or what came cannot be framed. */
  function Break(poll: Poll): Option<Trouble> {
    match poll
    case Broken => Some(Transport)
    case Chunk(None, _) => Some(Framing)
    case Ended(Torn, _) => Some(Framing)
    case _ => None
  }

  /** An answer that ends the stream ends the body, whatever would have come after it. */
  lemma EndsHere(policy: Policy, polls: seq<Poll>, last: Poll, rest: seq<Poll>)
    requires !Play(policy, FRESH, polls).1 && After(policy, Standing(policy, FRESH, polls), last).closed
    ensures Play(policy, FRESH, polls + ([last] + rest))
         == (Play(policy, FRESH, polls).0 + After(policy, Standing(policy, FRESH, polls), last).ready, true)
  {
    PlayJoins(policy, FRESH, polls, [last] + rest);
    assert ([last] + rest)[0] == last;
  }

  /** A body still open when its transport or its framing fails ends there, with that error and no `Finished`. */
  lemma BrokenBodiesSaySo(policy: Policy, polls: seq<Poll>, last: Poll, rest: seq<Poll>)
    requires !Play(policy, FRESH, polls).1 && Break(last).Some?
    ensures Play(policy, FRESH, polls + ([last] + rest))
         == (Play(policy, FRESH, polls).0 + [Error(Break(last).value)], true)
    ensures Endings(Play(policy, FRESH, polls + ([last] + rest)).0) == 0
  {
    var s, error := Standing(policy, FRESH, polls), [Error(Break(last).value)];
    PlayJoins(policy, FRESH, polls, [last] + rest);
    assert After(policy, s, last) == s.Fail(policy, Break(last).value);
    assert s.Fail(policy, Break(last).value).ready == error;
    EndsHere(policy, polls, last, rest);
    OneTerminalOutcome(policy, polls);
    EndingsJoin(Play(policy, FRESH, polls).0, error);
    assert error[..0] == [];
    assert Endings(error) == Endings(error[..0]) + 0;
  }

  /** A line that is not JSON is reported, last; it ends an open stream exactly under response limits. */
  lemma GarbledLinesAreReported(policy: Policy, s: State)
    requires !s.closed
    ensures var s' := ObserveLine(policy, s, Garbled);
            && s'.ready != [] && s'.ready[|s'.ready| - 1] == Error(NotJson)
            && (s'.closed <==> policy.limits.Some?) && (policy.limits.None? ==> s.ready <= s'.ready)
  {}

  // ---- a body that ends ------------------------------------------------------------------------------

  /** An answer that ends the body on its own: the sentinel, or the end with no half a frame left. */
  predicate JustEnds(poll: Poll) {
    match poll
    case Chunk(Some(_), done) => done
    case Ended(NoTail, _) => true
    case Ended(LastLine(_), _) => true
    case _ => false
  }

  /** The accumulator once the lines of such an answer are observed. */
  function Seen(policy: Policy, s: State, poll: Poll): State
    requires JustEnds(poll)
  {
    match poll
    case Chunk(Some(lines), _) => Lines(policy, s, lines)
    case Ended(LastLine(line), _) => ObserveLine(policy, s, line)
    case _ => s
  }

  /**
    A body that ends on its own, with its stream still open: it is closed, unless under response limits
    the sentinel was not seen, which is an error.
   */
  lemma BodiesThatJustEnd(policy: Policy, polls: seq<Poll>, last: Poll, rest: seq<Poll>)
    requires !Play(policy, FRESH, polls).1 && JustEnds(last)
    requires !Seen(policy, Standing(policy, FRESH, polls), last).closed
    ensures var s, before := Seen(policy, Standing(policy, FRESH, polls), last), Play(policy, FRESH, polls).0;
            Play(policy, FRESH, polls + ([last] + rest))
              == (before + if policy.limits.None? || last.done then Close(policy, s).ready else [Error(Unterminated)],
                  true)
  {
    var s := Seen(policy, Standing(policy, FRESH, polls), last);
    assert After(policy, Standing(policy, FRESH, polls), last)
           == if policy.limits.None? || last.done then Close(policy, s) else s.Fail(policy, Unterminated);
    EndsHere(policy, polls, last, rest);
  }

  lemma FailEndsNothing(policy: Policy, s: State, why: Trouble)
    requires Endings(s.ready) == 0
    ensures Endings(s.Fail(policy, why).ready) == 0
  {
    var error: seq<Told> := [Error(why)];
    assert error[..0] == [];
    assert Endings(error) == Endings(error[..0]) + 0;
    EndingsJoin(s.ready, error);
  }

  /** Lines alone finish nothing: a stream finishes only when it is closed. */
  lemma LineEndsNothing(policy: Policy, s: State, line: Line)
    requires Endings(s.ready) == 0
    ensures Endings(ObserveLine(policy, s, line).ready) == 0
  {
    FailEndsNothing(policy, s, NotJson);
    match line
    case Garbled =>
      var error: seq<Told> := [Error(NotJson)];
      EndingsJoin(s.ready, error);
      assert error[..0] == [];
      assert Endings(error) == Endings(error[..0]) + 0;
    case Decoded(frame) => FrameEndsNothing(policy, s, frame);
  }

  lemma {:induction false} CallsEndNothing(policy: Policy, s: State, parts: seq<CallPart>)
    requires Endings(s.ready) == 0
    ensures Endings(ObserveCalls(policy, s, parts).ready) == 0
  {
    if parts != [] {
      var before := ObserveCalls(policy, s, parts[..|parts| - 1]);
      CallsEndNothing(policy, s, parts[..|parts| - 1]);
      if policy.limits.Some? {
        var trouble := CallTrouble(policy.limits.value, before.calls, parts[|parts| - 1]);
        if trouble.Some? {
          FailEndsNothing(policy, before, trouble.value);
        }
      }
    }
  }

  lemma FrameEndsNothing(policy: Policy, s: State, frame: Frame)
    requires Endings(s.ready) == 0
    ensures Endings(Observe(policy, s, frame).ready) == 0
  {
    FailEndsNothing(policy, s, FrameTooLarge);
    if frame.choice.Some? && frame.choice.value.delta.Some? {
      var told := if frame.usage.None? then s else s.(usage := Some(DecodeUsage(frame.usage.value)));
      var choice, delta := frame.choice.value, frame.choice.value.delta.value;
      var noted := if choice.finish.None? then told else told.(finish := Some(DecodeFinish(choice.finish.value)));
      var spoken := noted.(ready := Push(Push(noted.ready, delta.reasoning, true), delta.content, false));
      SpeakingEndsNothing(s.ready, delta);
      CallsEndNothing(policy, spoken, delta.calls);
    }
  }

  lemma SpeakingEndsNothing(ready: seq<Told>, delta: Delta)
    requires Endings(ready) == 0
    ensures Endings(Push(Push(ready, delta.reasoning, true), delta.content, false)) == 0
  {
    var said := Spoken(delta.reasoning, true) + Spoken(delta.content, false);
    PushesSpoken(ready, delta);
    NotTerminalEndsNothing(said);
    EndingsJoin(ready, said);
  }

  lemma {:induction false} LinesEndNothing(policy: Policy, s: State, lines: seq<Line>)
    requires Endings(s.ready) == 0
    ensures Endings(Lines(policy, s, lines).ready) == 0
  {
    if lines != [] {
      LinesEndNothing(policy, s, lines[..|lines| - 1]);
      LineEndsNothing(policy, Lines(policy, s, lines[..|lines| - 1]), lines[|lines| - 1]);
    }
  }

  /** An answer that may finish a body: it ends on its own and, under response limits, with the sentinel seen. */
  predicate EndsProperly(policy: Policy, poll: Poll) {
    JustEnds(poll) && (policy.limits.None? || poll.done)
  }

  lemma OnlyProperEndsFinish(policy: Policy, s: State, poll: Poll)
    requires !s.closed && s.ready == [] && Endings(After(policy, s, poll).ready) != 0
    ensures EndsProperly(policy, poll)
  {
    FailEndsNothing(policy, s, Transport);
    FailEndsNothing(policy, s, Framing);
    FailEndsNothing(policy, s, Unterminated);
    match poll
    case Chunk(Some(lines), done) =>
      LinesEndNothing(policy, s, lines);
      FailEndsNothing(policy, Lines(policy, s, lines), Unterminated);
    case Ended(LastLine(line), done) =>
      LineEndsNothing(policy, s, line);
      FailEndsNothing(policy, ObserveLine(policy, s, line), Unterminated);
    case _ =>
  }

  /** A body that finishes was open up to an answer that ends it properly. */
  lemma {:induction false} OnlyProperBodiesFinish(policy: Policy, s: State, polls: seq<Poll>) returns (k: nat)
    requires !s.closed && s.ready == [] && Endings(Play(policy, s, polls).0) != 0
    ensures k < |polls| && !Play(policy, s, polls[..k]).1 && EndsProperly(policy, polls[k])
    decreases |polls|
  {
    var s' := After(policy, s, polls[0]);
    if s'.closed || Endings(s'.ready) != 0 {
      k := 0;
      OnlyProperEndsFinish(policy, s, polls[0]);
    } else {
      EndingsJoin(s'.ready, Play(policy, s'.(ready := []), polls[1..]).0);
      k := OnlyProperBodiesFinish(policy, s'.(ready := []), polls[1..]);
      assert polls[..k + 1][0] == polls[0] && polls[..k + 1][1..] == polls[1..][..k];
      k := k + 1;
    }
  }
}
