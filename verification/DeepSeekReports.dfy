/** What the reader of a chat-completions response has once it ends, and which responses are let through. */
module DeepSeekReports {
  import opened Wrappers
  import opened Stream
  import opened DeepSeekStream
  import opened DeepSeekCalls

  // ---- the reason and the usage ------------------------------------------------------------------------

  /** The last finish reason the frames give, as it came. */
  function LastReason(frames: seq<Frame>): Option<string> {
    if frames == [] then None
    else
      match frames[|frames| - 1].choice
      case Some(Choice(Some(reason), _)) => Some(reason)
      case _ => LastReason(frames[..|frames| - 1])
  }

  /** What a finish reason on the wire means; a response that gives none has just stopped. */
  predicate ReasonMeans(raw: Option<string>, reason: Finish) {
    match reason
    case Stop => raw in {None, Some("stop")}
    case ToolCalls => raw == Some("tool_calls")
    case Length => raw == Some("length")
    case ContentFilter => raw == Some("content_filter")
    case Unknown(text) => raw == Some(text) && text !in {"stop", "tool_calls", "length", "content_filter"}
  }

  lemma {:induction false} FinishIsTheLastReason(frames: seq<Frame>)
    ensures if LastReason(frames).None? then LastFinish(frames).None?
            else LastFinish(frames).Some? && ReasonMeans(LastReason(frames), LastFinish(frames).value)
  {
    if frames != [] {
      FinishIsTheLastReason(frames[..|frames| - 1]);
    }
  }

  /** The last usage the frames give, as it came. */
  function LastCounts(frames: seq<Frame>): Option<Usage> {
    if frames == [] then None
    else if frames[|frames| - 1].usage.Some? then frames[|frames| - 1].usage
    else LastCounts(frames[..|frames| - 1])
  }

  /** A count as it is read: one that does not fit a `u32` reads as zero. */
  predicate ReadsAs(raw: nat, count: nat) {
    if raw <= U32_MAX then count == raw else count == 0
  }

  /** Each count of a usage is read on its own, under its own name. */
  predicate UsageReadsAs(raw: Usage, usage: Usage) {
    && ReadsAs(raw.prompt, usage.prompt) && ReadsAs(raw.completion, usage.completion)
    && ReadsAs(raw.reasoning, usage.reasoning) && ReadsAs(raw.hit, usage.hit) && ReadsAs(raw.miss, usage.miss)
  }

  lemma {:induction false} UsageIsTheLast(frames: seq<Frame>)
    ensures if LastCounts(frames).None? then LastUsage(frames).None?
            else LastUsage(frames).Some? && UsageReadsAs(LastCounts(frames).value, LastUsage(frames).value)
  {
    if frames != [] {
      UsageIsTheLast(frames[..|frames| - 1]);
    }
  }

  // ---- the calls ---------------------------------------------------------------------------------------

  /** The event a call is reported by, from its deltas. */
  function CallEvent(limits: seq<(string, nat)>, own: seq<CallPart>, index: nat): Told {
    CallDelta(index, Some(IdOf(own)), Some(NameOf(own)), if EverTooLong(limits, own) then OVERSIZED else Texts(own))
  }

  predicate Ordered(events: seq<Told>) {
    forall i, j :: 0 <= i < j < |events| && events[i].CallDelta? && events[j].CallDelta? ==>
      events[i].index < events[j].index
  }

  lemma ReportIs(call: Partial, index: nat)
    ensures |Report(call, index)| <= 1
    ensures forall e <- Report(call, index) :: e.CallDelta? || e == Error(BadName)
    ensures forall e: Told :: e.CallDelta? ==>
              (e in Report(call, index) <==>
                 && ValidName(call.name)
                 && e == CallDelta(index, Some(call.id), Some(call.name),
                                   if call.oversized then OVERSIZED else call.arguments))
  {}

  /** The reports of a slot vector: one for each slot with a usable name, in slot order. */
  lemma {:induction false} ReportsAre(calls: seq<Partial>)
    ensures Ordered(Reports(calls))
    ensures forall e <- Reports(calls) :: e.CallDelta? ==> e.index < |calls|
    ensures forall e <- Reports(calls) :: e.CallDelta? || e == Error(BadName)
    ensures forall e: Told :: e.CallDelta? && e in Reports(calls) ==>
              e.index < |calls| && e in Report(calls[e.index], e.index)
    ensures forall e: Told :: e.CallDelta? && e.index < |calls| && e in Report(calls[e.index], e.index) ==>
              e in Reports(calls)
  {
    if calls != [] {
      var n := |calls| - 1;
      ReportsAre(calls[..n]);
      ReportIs(calls[n], n);
      var before, last := Reports(calls[..n]), Report(calls[n], n);
      assert forall e: Told :: e in before + last <==> e in before || e in last;
      assert forall i | 0 <= i < |before| :: before[i] in before;
      forall i, j | 0 <= i < j < |before + last| && (before + last)[i].CallDelta? && (before + last)[j].CallDelta?
        ensures (before + last)[i].index < (before + last)[j].index
      {
        if j < |before| {
          assert before[i].index < before[j].index;
        } else {
          assert last[j - |before|] in last;
        }
      }
    }
  }

  /**
    What the reader has once a body has ended well: the reasoning and text in order; then each call with
    a usable name, once, in index order, with the last id and name its deltas gave and its arguments,
    judged; then the last usage; and last, once, the last finish reason.
   */
  lemma EndedBodiesReport(policy: Policy, frames: seq<Frame>)
    returns (calls: seq<Told>, usage: seq<Told>, reason: Finish)
    requires !Run(policy, frames).closed && Ending(policy, Run(policy, frames)).Some?
    ensures Close(policy, Run(policy, frames)).ready == Said(frames) + (calls + (usage + [Finished(reason)]))
    ensures ReasonMeans(LastReason(frames), reason)
    ensures match LastCounts(frames)
            case None => usage == []
            case Some(raw) => |usage| == 1 && usage[0].Spent? && UsageReadsAs(raw, usage[0].usage)
    ensures Ordered(calls) && forall e <- calls :: e.CallDelta? || e == Error(BadName)
    ensures forall e: Told :: e.CallDelta? ==>
              (e in calls <==>
                 var own := Own(AllParts(frames), e.index);
                 ValidName(NameOf(own)) && e == CallEvent(policy.arguments, own, e.index))
  {
    var s := Run(policy, frames);
    calls, reason := Reports(s.calls), s.finish.Or(Stop, reason => reason);
    usage := if s.usage.None? then [] else [Spent(s.usage.value)];
    CloseEnds(policy, s);
    RunSays(policy, frames);
    FinishIsTheLastReason(frames);
    UsageIsTheLast(frames);
    ReportsAre(s.calls);
    SlotsDependOnTheirOwnDeltas(policy, frames);
    forall e: Told | e.CallDelta?
      ensures e in calls <==>
              var own := Own(AllParts(frames), e.index);
              ValidName(NameOf(own)) && e == CallEvent(policy.arguments, own, e.index)
    {
      OneCallReported(policy, s, AllParts(frames), e);
    }
  }

  lemma OneCallReported(policy: Policy, s: State, parts: seq<CallPart>, e: Told)
    requires Faithful(policy, s, parts) && e.CallDelta?
    ensures e in Reports(s.calls) <==>
            var own := Own(parts, e.index);
            ValidName(NameOf(own)) && e == CallEvent(policy.arguments, own, e.index)
  {
    var slot := SlotAt(s.calls, e.index);
    AssembledIsJudged(policy, Own(parts, e.index));
    assert slot == Assembled(policy, Own(parts, e.index));
    ReportsAre(s.calls);
    ReportIs(slot, e.index);
  }

  /** A call that cannot be reported: something of it came, but no id or no usable name. */
  predicate Nameless(limits: seq<(string, nat)>, own: seq<CallPart>) {
    && (IdOf(own) != "" || NameOf(own) != "" || (!EverTooLong(limits, own) && Texts(own) != ""))
    && (IdOf(own) == "" || !ValidName(NameOf(own)))
  }

  ghost predicate SomeNameless(limits: seq<(string, nat)>, parts: seq<CallPart>) {
    exists index: nat :: Nameless(limits, Own(parts, index))
  }

  /** An open stream fails to close exactly when, under response limits, one of its calls cannot be reported. */
  lemma CloseFailsExactlyWhen(policy: Policy, frames: seq<Frame>)
    requires !Run(policy, frames).closed
    ensures Ending(policy, Run(policy, frames)).None? <==>
            policy.limits.Some? && SomeNameless(policy.arguments, AllParts(frames))
    ensures Ending(policy, Run(policy, frames)).None? ==>
              Close(policy, Run(policy, frames)) == Run(policy, frames).Fail(policy, BadCall)
  {
    CloseEnds(policy, Run(policy, frames));
    SlotsDependOnTheirOwnDeltas(policy, frames);
    NamelessExactly(policy, Run(policy, frames), AllParts(frames));
    EndingFails(policy, Run(policy, frames));
  }

  lemma EndingFails(policy: Policy, s: State)
    ensures Ending(policy, s).None? <==> policy.limits.Some? && HasUnusable(s)
  {}

  predicate HasUnusable(s: State) {
    exists call <- s.calls :: Unusable(call)
  }

  lemma SlotIsNameless(policy: Policy, s: State, parts: seq<CallPart>, index: nat)
    requires Faithful(policy, s, parts)
    ensures Unusable(SlotAt(s.calls, index)) <==> Nameless(policy.arguments, Own(parts, index))
  {
    assert SlotAt(s.calls, index) == Assembled(policy, Own(parts, index));
    AssembledIsJudged(policy, Own(parts, index));
  }

  lemma NamelessExactly(policy: Policy, s: State, parts: seq<CallPart>)
    requires Faithful(policy, s, parts)
    ensures HasUnusable(s) <==> SomeNameless(policy.arguments, parts)
  {
    if SomeNameless(policy.arguments, parts) {
      var index: nat :| Nameless(policy.arguments, Own(parts, index));
      SlotIsNameless(policy, s, parts, index);
      assert SlotAt(s.calls, index) in s.calls;
    }
    if HasUnusable(s) {
      var call :| call in s.calls && Unusable(call);
      var index :| 0 <= index < |s.calls| && s.calls[index] == call;
      SlotIsNameless(policy, s, parts, index);
    }
  }

  // ---- which responses are let through -----------------------------------------------------------------

  /** What a call has kept of its arguments. */
  function Kept(policy: Policy, own: seq<CallPart>): string {
    if EverTooLong(policy.arguments, own) then "" else Texts(own)
  }

  /** The deltas already received at the index a delta names. */
  function Earlier(before: seq<CallPart>, part: CallPart): seq<CallPart> {
    if part.index.At? && 256 <= part.index.n then [] else Own(before, if part.index.At? then part.index.n else 0)
  }

  /** A delta the response budgets allow: an index in range, and a call no larger with it than an event may be. */
  predicate Allowed(policy: Policy, limits: Limits, before: seq<CallPart>, part: CallPart) {
    var own := Earlier(before, part);
    && !part.index.NotANumber? && (if part.index.At? then part.index.n else 0) < limits.toolSlots
    && |NonEmpty(part.id, IdOf(own))| + |NonEmpty(part.Name(), NameOf(own))| + |Kept(policy, own)| + |part.Added()|
         <= limits.eventBytes
  }

  predicate AllAllowed(policy: Policy, limits: Limits, parts: seq<CallPart>) {
    forall k :: 0 <= k < |parts| ==> Allowed(policy, limits, parts[..k], parts[k])
  }

  lemma TroubleExactly(policy: Policy, limits: Limits, s: State, parts: seq<CallPart>, part: CallPart)
    requires Faithful(policy, s, parts)
    ensures CallTrouble(limits, s.calls, part).None? <==> Allowed(policy, limits, parts, part)
  {
    var own := Earlier(parts, part);
    assert SlotAt(s.calls, RawIndex(part)) == Assembled(policy, own) by {
      assert forall index: nat :: SlotAt(s.calls, index) == Assembled(policy, Own(parts, index));
    }
    AssembledIsJudged(policy, own);
  }

  lemma OneMoreAllowed(policy: Policy, limits: Limits, parts: seq<CallPart>, part: CallPart)
    ensures AllAllowed(policy, limits, parts + [part]) <==>
            AllAllowed(policy, limits, parts) && Allowed(policy, limits, parts, part)
  {
    var all := parts + [part];
    assert all[..|parts|] == parts && all[|parts|] == part;
    assert forall k | 0 <= k < |parts| :: all[..k] == parts[..k] && all[k] == parts[k];
  }

  lemma {:induction false} CallsOpenExactly(
      policy: Policy, limits: Limits, s: State, more: seq<CallPart>, parts: seq<CallPart>)
    requires policy.limits == Some(limits) && !s.closed && Faithful(policy, s, parts)
    requires AllAllowed(policy, limits, parts)
    ensures !ObserveCalls(policy, s, more).closed <==> AllAllowed(policy, limits, parts + more)
  {
    if more == [] {
      NothingMore(parts);
    } else {
      var init, last := more[..|more| - 1], more[|more| - 1];
      var before := ObserveCalls(policy, s, init);
      assert more == init + [last];
      Regrouped(parts, init, [last]);
      CallsOpenExactly(policy, limits, s, init, parts);
      OneMoreAllowed(policy, limits, parts + init, last);
      if !before.closed {
        ObserveCallsIsFaithful(policy, s, init, parts);
        TroubleExactly(policy, limits, before, parts + init, last);
      }
    }
  }

  predicate AllSmall(limits: Limits, frames: seq<Frame>) {
    forall frame <- frames :: frame.size <= limits.eventBytes
  }

  lemma FrameOpenExactly(policy: Policy, limits: Limits, s: State, frame: Frame, parts: seq<CallPart>)
    requires policy.limits == Some(limits) && !s.closed && Faithful(policy, s, parts)
    requires AllAllowed(policy, limits, parts)
    ensures !Observe(policy, s, frame).closed <==>
            frame.size <= limits.eventBytes && AllAllowed(policy, limits, parts + PartsOf(frame))
  {
    NothingMore(parts);
    if frame.choice.Some? && frame.choice.value.delta.Some? {
      var told := if frame.usage.None? then s else s.(usage := Some(DecodeUsage(frame.usage.value)));
      var choice, delta := frame.choice.value, frame.choice.value.delta.value;
      var noted := if choice.finish.None? then told else told.(finish := Some(DecodeFinish(choice.finish.value)));
      var spoken := noted.(ready := Push(Push(noted.ready, delta.reasoning, true), delta.content, false));
      CallsOpenExactly(policy, limits, spoken, delta.calls, parts);
    }
  }

  /**
    Under response limits a stream is open after its frames exactly when each of them is within the
    event budget and so is every call with each delta it got; nothing else refuses a frame.
   */
  lemma {:induction false} OpenExactlyWhen(policy: Policy, limits: Limits, frames: seq<Frame>)
    requires policy.limits == Some(limits)
    ensures !Run(policy, frames).closed <==>
            AllSmall(limits, frames) && AllAllowed(policy, limits, AllParts(frames))
  {
    if frames != [] {
      var n := |frames| - 1;
      var init, last := frames[..n], frames[n];
      OpenExactlyWhen(policy, limits, init);
      assert last in frames && forall frame <- init :: frame in frames;
      assert forall frame <- frames :: frame in init || frame == last;
      if Run(policy, init).closed {
        StaysClosed(policy, Run(policy, init), last);
        AllowedBefore(policy, limits, AllParts(init), PartsOf(last));
      } else {
        SlotsDependOnTheirOwnDeltas(policy, init);
        FrameOpenExactly(policy, limits, Run(policy, init), last, AllParts(init));
      }
    }
  }

  lemma AllowedBefore(policy: Policy, limits: Limits, parts: seq<CallPart>, more: seq<CallPart>)
    ensures AllAllowed(policy, limits, parts + more) ==> AllAllowed(policy, limits, parts)
  {
    assert forall k | 0 <= k < |parts| :: (parts + more)[..k] == parts[..k] && (parts + more)[k] == parts[k];
  }
}
