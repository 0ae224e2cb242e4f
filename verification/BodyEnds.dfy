/** How a body ends: a broken one says so, and only a proper end finishes. */
module BodyEnds {
  import opened Wrappers
  import opened Stream
  import opened AnthropicStream
  import opened AnthropicStreamProofs
  import opened StreamEndings
  import opened Response

  // ---- bodies, answer by answer ----------------------------------------------------------------------

  /** The accumulator after the answers, with its events taken, when none of them ended the stream. */
  function Standing(policy: Policy, s: State, polls: seq<Poll>): State
    decreases |polls|
  {
    if polls == [] then s else Standing(policy, After(policy, s, polls[0]).(ready := []), polls[1..])
  }

  /** What follows answers that leave the stream open is played from where they leave it. */
  lemma {:induction false} PlayJoins(policy: Policy, s: State, polls: seq<Poll>, more: seq<Poll>)
    requires !s.closed && s.ready == [] && !Play(policy, s, polls).1
    ensures !Standing(policy, s, polls).closed && Standing(policy, s, polls).ready == []
    ensures var rest := Play(policy, Standing(policy, s, polls), more);
            Play(policy, s, polls + more) == (Play(policy, s, polls).0 + rest.0, rest.1)
    decreases |polls|
  {
    if polls == [] {
      NothingMore(more);
      NothingMore(Play(policy, s, more).0);
    } else {
      var s' := After(policy, s, polls[0]);
      assert (polls + more)[0] == polls[0] && (polls + more)[1..] == polls[1..] + more;
      PlayJoins(policy, s'.(ready := []), polls[1..], more);
      Regrouped(s'.ready, Play(policy, s'.(ready := []), polls[1..]).0,
                Play(policy, Standing(policy, s'.(ready := []), polls[1..]), more).0);
    }
  }

  /** An answer that ends the stream ends the body, whatever would have come after it. */
  lemma EndsHere(policy: Policy, polls: seq<Poll>, last: Poll, rest: seq<Poll>)
    requires !Play(policy, FRESH, polls).1 && After(policy, Standing(policy, FRESH, polls), last).closed
    ensures Play(policy, FRESH, polls + ([last] + rest))
         == (Play(policy, FRESH, polls).0 + After(policy, Standing(policy, FRESH, polls), last).ready, true)
  {
    PlayJoins(policy, FRESH, polls, [last] + rest);
    assert ([last] + rest)[0] == last;
  }

  // ---- a body that breaks ----------------------------------------------------------------------------

  /** Why an answer breaks the body: the transport failed, or what came cannot be framed. */
  function Break(poll: Poll): Option<Trouble> {
    match poll
    case Broken => Some(Transport)
    case Chunk(None, _) => Some(Framing)
    case Ended(Torn) => Some(Framing)
    case _ => None
  }

  lemma OpenBodyHasNotFinished(policy: Policy, polls: seq<Poll>)
    requires !Play(policy, FRESH, polls).1
    ensures !HasFinished(Play(policy, FRESH, polls).0)
  {
    PlayKeeps(policy, [], FRESH, polls);
    PlayJoins(policy, FRESH, polls, []);
    OpenPlayIsUnfinished(policy, [], FRESH, polls);
    NothingMore(Play(policy, FRESH, polls).0);
    EndingsCount(Play(policy, FRESH, polls).0);
  }

  lemma {:induction false} OpenPlayIsUnfinished(
      policy: Policy, given: seq<Event<Stored>>, s: State, polls: seq<Poll>)
    requires Between(policy, given, s) && !Play(policy, s, polls).1
    ensures Endings(given + Play(policy, s, polls).0) == 0
    decreases |polls|
  {
    if polls == [] {
      NothingMore(given);
    } else {
      var s' := After(policy, s, polls[0]);
      AnswerKeeps(policy, given, s, polls[0]);
      OpenPlayIsUnfinished(policy, given + s'.ready, s'.(ready := []), polls[1..]);
      Regrouped(given, s'.ready, Play(policy, s'.(ready := []), polls[1..]).0);
    }
  }

  /**
    A body that is still open when its transport fails, or when its framing does, ends there with an
    error that says which, and has not finished.
   */
  lemma BrokenBodiesSaySo(policy: Policy, polls: seq<Poll>, last: Poll, rest: seq<Poll>)
    requires !Play(policy, FRESH, polls).1 && Break(last).Some?
    ensures Play(policy, FRESH, polls + ([last] + rest))
         == (Play(policy, FRESH, polls).0 + [Error(Break(last).value)], true)
    ensures !HasFinished(Play(policy, FRESH, polls + ([last] + rest)).0)
  {
    var s := Standing(policy, FRESH, polls);
    PlayJoins(policy, FRESH, polls, [last] + rest);
    assert After(policy, s, last) == s.Fail(policy, Break(last).value);
    assert s.Fail(policy, Break(last).value).ready == [Error(Break(last).value)];
    EndsHere(policy, polls, last, rest);
    OpenBodyHasNotFinished(policy, polls);
    FinishedParts(Play(policy, FRESH, polls).0, [Error(Break(last).value)]);
  }

  // ---- a body that ends ------------------------------------------------------------------------------

  /** An answer that ends the body on its own: the sentinel, or the end with no half a frame left. */
  predicate JustEnds(poll: Poll) {
    match poll
    case Chunk(Some(_), done) => done
    case Ended(NoTail) => true
    case Ended(LastLine(_)) => true
    case _ => false
  }

  /** The accumulator once the lines of such an answer are observed. */
  function Seen(policy: Policy, s: State, poll: Poll): State
    requires JustEnds(poll)
  {
    match poll
    case Chunk(Some(lines), _) => Lines(policy, s, lines)
    case Ended(LastLine(line)) => ObserveLine(policy, s, line)
    case _ => s
  }

  lemma SeenIsUnfinished(policy: Policy, s: State, poll: Poll)
    requires JustEnds(poll) && !s.closed && s.ready == [] && !Seen(policy, s, poll).closed
    ensures !HasFinished(Seen(policy, s, poll).ready)
  {
    var x := Session(s, []);
    match poll
    case Chunk(Some(lines), _) =>
      LinesKeep(policy, x, lines);
      UnfinishedOut(Lines(policy, s, lines));
    case Ended(LastLine(line)) =>
      Step(policy, x, Observed(line));
      UnfinishedOut(ObserveLine(policy, s, line));
    case _ =>
  }

  lemma UnfinishedOut(s: State)
    requires EndsAtMostOnce(Session(s, [])) && !s.closed
    ensures !HasFinished(s.ready)
  {
    NothingMore(s.ready);
    EndingsCount(s.ready);
  }

  /**
    A body that ends on its own, with its stream still open: under response limits that is an error;
    without them it is closed, and finishes unless there is thinking it cannot replay.
   */
  lemma BodiesThatJustEnd(policy: Policy, polls: seq<Poll>, last: Poll, rest: seq<Poll>)
    requires !Play(policy, FRESH, polls).1 && JustEnds(last)
    requires !Seen(policy, Standing(policy, FRESH, polls), last).closed
    ensures var s, before := Seen(policy, Standing(policy, FRESH, polls), last), Play(policy, FRESH, polls).0;
            var end := Play(policy, FRESH, polls + ([last] + rest));
            && end.1
            && (policy.limits.Some? ==> end.0 == before + [Error(Unterminated)] && !HasFinished(end.0))
            && (policy.limits.None? ==>
                  end.0 == before + Close(policy, s).ready && (HasFinished(end.0) <==> !Withheld(policy, s)))
  {
    var s := Seen(policy, Standing(policy, FRESH, polls), last);
    assert After(policy, Standing(policy, FRESH, polls), last)
           == if policy.limits.Some? then s.Fail(policy, Unterminated) else Close(policy, s);
    PlayJoins(policy, FRESH, polls, []);
    SeenIsUnfinished(policy, Standing(policy, FRESH, polls), last);
    CloseProceeds(policy, s);
    CloseFinishes(policy, s);
    EndsHere(policy, polls, last, rest);
    OpenBodyHasNotFinished(policy, polls);
    FinishedParts(Play(policy, FRESH, polls).0, [Error(Unterminated)]);
    FinishedParts(Play(policy, FRESH, polls).0, Close(policy, s).ready);
  }

  // ---- what finishes a body --------------------------------------------------------------------------

  predicate IsStop(line: Line) {
    line.Decoded? && line.frame.body.MessageStop?
  }

  predicate HasStop(lines: seq<Line>) {
    exists line <- lines :: IsStop(line)
  }

  /**
    An answer that may finish a body: it holds a `message_stop`; or, without response limits, it is
    the sentinel or the ordinary end.
   */
  predicate EndsProperly(policy: Policy, poll: Poll) {
    match poll
    case Broken => false
    case Chunk(None, _) => false
    case Chunk(Some(lines), done) => HasStop(lines) || (policy.limits.None? && done)
    case Ended(NoTail) => policy.limits.None?
    case Ended(LastLine(line)) => IsStop(line) || policy.limits.None?
    case Ended(Torn) => false
  }

  lemma OtherLinesDoNotFinish(policy: Policy, s: State, line: Line)
    requires !IsStop(line) && !HasFinished(s.ready)
    ensures !HasFinished(ObserveLine(policy, s, line).ready)
  {
    var s' := ObserveLine(policy, s, line);
    var x := Session(s, []);
    if s.closed {
      LateStepOnlyErrors(policy, x, Observed(line));
      LateErrorsDoNotFinish(policy, s, s');
    } else if s'.closed && line.Decoded? {
      FrameFails(policy, s, line.frame);
      FailureAddsErrors(policy, [], s, s');
      NothingMore(s.ready);
      NothingMore(s'.ready);
    } else {
      FinishedParts(s.ready, [Error(NotJson)]);
      ObserveProceeds(policy, s, line);
      if !Cleared(policy, s') {
        EndingsCount(s'.ready[|s.ready|..]);
        assert s'.ready == s.ready + s'.ready[|s.ready|..];
        FinishedParts(s.ready, s'.ready[|s.ready|..]);
      }
    }
  }

  lemma LateErrorsDoNotFinish(policy: Policy, s: State, s': State)
    requires OnlyErrors(policy, s, s') && !HasFinished(s.ready)
    ensures !HasFinished(s'.ready)
  {
    if !Cleared(policy, s') {
      assert s'.ready == s.ready + s'.ready[|s.ready|..];
      FinishedParts(s.ready, s'.ready[|s.ready|..]);
    }
  }

  lemma {:induction false} OtherLinesFinishNothing(policy: Policy, s: State, lines: seq<Line>)
    requires !HasStop(lines) && !HasFinished(s.ready)
    ensures !HasFinished(Lines(policy, s, lines).ready)
  {
    if lines != [] {
      var init, last := lines[..|lines| - 1], lines[|lines| - 1];
      assert last in lines && forall line <- init :: line in lines;
      OtherLinesFinishNothing(policy, s, init);
      OtherLinesDoNotFinish(policy, Lines(policy, s, init), last);
    }
  }

  lemma FailureDoesNotFinish(policy: Policy, s: State, why: Trouble)
    requires !HasFinished(s.ready)
    ensures !HasFinished(s.Fail(policy, why).ready)
  {
    FinishedParts(s.ready, [Error(why)]);
  }

  /** An answer that finishes an open stream is one that ends it properly. */
  lemma OnlyProperEndsFinish(policy: Policy, s: State, poll: Poll)
    requires !s.closed && s.ready == [] && HasFinished(After(policy, s, poll).ready)
    ensures EndsProperly(policy, poll)
  {
    FailureDoesNotFinish(policy, s, Transport);
    FailureDoesNotFinish(policy, s, Framing);
    FailureDoesNotFinish(policy, s, Unterminated);
    match poll
    case Chunk(Some(lines), done) =>
      if !HasStop(lines) {
        OtherLinesFinishNothing(policy, s, lines);
        FailureDoesNotFinish(policy, Lines(policy, s, lines), Unterminated);
      }
    case Ended(LastLine(line)) =>
      if !IsStop(line) {
        OtherLinesDoNotFinish(policy, s, line);
        FailureDoesNotFinish(policy, ObserveLine(policy, s, line), Unterminated);
      }
    case _ =>
  }

  /** A body that finishes was still open up to an answer that ends it properly, and that answer finished it. */
  lemma {:induction false} PlayFinishesProperly(policy: Policy, s: State, polls: seq<Poll>) returns (k: nat)
    requires Between(policy, [], s) && HasFinished(Play(policy, s, polls).0)
    ensures k < |polls| && !Play(policy, s, polls[..k]).1 && EndsProperly(policy, polls[k])
    decreases |polls|
  {
    var s' := After(policy, s, polls[0]);
    AnswerKeeps(policy, [], s, polls[0]);
    NothingMore(s'.ready);
    if s'.closed {
      k := 0;
      OnlyProperEndsFinish(policy, s, polls[0]);
    } else {
      EndingsCount(s'.ready);
      FinishedParts(s'.ready, Play(policy, s'.(ready := []), polls[1..]).0);
      k := PlayFinishesProperly(policy, s'.(ready := []), polls[1..]);
      assert polls[..k + 1][0] == polls[0] && polls[..k + 1][1..] == polls[1..][..k];
      k := k + 1;
    }
  }

  lemma OnlyProperBodiesFinish(policy: Policy, polls: seq<Poll>) returns (k: nat)
    requires HasFinished(Play(policy, FRESH, polls).0)
    ensures k < |polls| && !Play(policy, FRESH, polls[..k]).1 && EndsProperly(policy, polls[k])
  {
    k := PlayFinishesProperly(policy, FRESH, polls);
  }
}
