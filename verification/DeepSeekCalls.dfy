/** Call assembly: each call is what its own deltas make it. */
module DeepSeekCalls {
  import opened Wrappers
  import opened Stream
  import opened DeepSeekStream

  // ---- runs ----------------------------------------------------------------------------------------

  function Run(policy: Policy, frames: seq<Frame>): State {
    if frames == [] then FRESH
    else Observe(policy, Run(policy, frames[..|frames| - 1]), frames[|frames| - 1])
  }

  function PartsOf(frame: Frame): seq<CallPart> {
    if frame.choice.None? || frame.choice.value.delta.None? then [] else frame.choice.value.delta.value.calls
  }

  function AllParts(frames: seq<Frame>): seq<CallPart> {
    if frames == [] then [] else AllParts(frames[..|frames| - 1]) + PartsOf(frames[|frames| - 1])
  }

  /**
    Whether a delta belongs to the call at `index`: it names that index; one that names none, or one no
    response could reach, belongs to the first.
   */
  predicate Belongs(part: CallPart, index: nat) {
    if part.index.At? && part.index.n < 256 then part.index.n == index else index == 0
  }

  /** The deltas that belong to the call at `index`. */
  function Own(parts: seq<CallPart>, index: nat): seq<CallPart> {
    if parts == [] then []
    else
      var last := parts[|parts| - 1];
      Own(parts[..|parts| - 1], index) + if Belongs(last, index) then [last] else []
  }

  /** One call, from its own deltas alone. */
  function Assembled(policy: Policy, own: seq<CallPart>): Partial {
    if own == [] then EMPTY else Fold(policy, Assembled(policy, own[..|own| - 1]), own[|own| - 1])
  }

  /** The slot at `index`; one that was never grown is empty. */
  function SlotAt(calls: seq<Partial>, index: nat): Partial {
    if index < |calls| then calls[index] else EMPTY
  }

  // ---- slots and their deltas ----------------------------------------------------------------------

  /** Every slot holds what its own deltas among `parts` make it, and there are at most 256. */
  ghost predicate Faithful(policy: Policy, s: State, parts: seq<CallPart>) {
    && |s.calls| <= MAX_TOOL_CALLS
    && forall index: nat :: SlotAt(s.calls, index) == Assembled(policy, Own(parts, index))
  }

  lemma ObserveCallIsFaithful(policy: Policy, s: State, part: CallPart, parts: seq<CallPart>)
    requires Faithful(policy, s, parts) && !ObserveCall(policy, s, part).closed
    ensures Faithful(policy, ObserveCall(policy, s, part), parts + [part])
  {
    var s' := ObserveCall(policy, s, part);
    forall index: nat
      ensures SlotAt(s'.calls, index) == Assembled(policy, Own(parts + [part], index))
    {
      OneSlotFollows(policy, s, part, index);
      OwnNext(parts, part, index);
      AssembledNext(policy, Own(parts, index), part);
    }
    OneSlotFollows(policy, s, part, 0);
  }

  /** A delta changes the slot it belongs to, and no other. */
  lemma OneSlotFollows(policy: Policy, s: State, part: CallPart, index: nat)
    requires |s.calls| <= MAX_TOOL_CALLS && !ObserveCall(policy, s, part).closed
    ensures |ObserveCall(policy, s, part).calls| <= MAX_TOOL_CALLS
    ensures SlotAt(ObserveCall(policy, s, part).calls, index)
         == if Belongs(part, index) then Fold(policy, SlotAt(s.calls, index), part) else SlotAt(s.calls, index)
  {}

  lemma OwnNext(parts: seq<CallPart>, part: CallPart, index: nat)
    ensures Own(parts + [part], index) == if Belongs(part, index) then Own(parts, index) + [part] else Own(parts, index)
  {
    assert (parts + [part])[..|parts|] == parts;
    NothingMore(Own(parts, index));
  }

  lemma AssembledNext(policy: Policy, own: seq<CallPart>, part: CallPart)
    ensures Assembled(policy, own + [part]) == Fold(policy, Assembled(policy, own), part)
  {
    assert (own + [part])[..|own|] == own;
  }

  lemma {:induction false} ObserveCallsIsFaithful(policy: Policy, s: State, more: seq<CallPart>, parts: seq<CallPart>)
    requires Faithful(policy, s, parts) && !ObserveCalls(policy, s, more).closed
    ensures Faithful(policy, ObserveCalls(policy, s, more), parts + more)
  {
    if more == [] {
      assert parts + more == parts;
    } else {
      var n := |more| - 1;
      assert parts + more == parts + more[..n] + [more[n]];
      var before := ObserveCalls(policy, s, more[..n]);
      if !before.closed {
        ObserveCallsIsFaithful(policy, s, more[..n], parts);
        ObserveCallIsFaithful(policy, before, more[n], parts + more[..n]);
      }
    }
  }

  lemma ObserveIsFaithful(policy: Policy, s: State, frame: Frame, parts: seq<CallPart>)
    requires !s.closed && Faithful(policy, s, parts) && !Observe(policy, s, frame).closed
    ensures Faithful(policy, Observe(policy, s, frame), parts + PartsOf(frame))
  {
    var told := if frame.usage.None? then s else s.(usage := Some(DecodeUsage(frame.usage.value)));
    assert parts + [] == parts;
    if frame.choice.Some? && frame.choice.value.delta.Some? {
      var choice, delta := frame.choice.value, frame.choice.value.delta.value;
      var noted := if choice.finish.None? then told else told.(finish := Some(DecodeFinish(choice.finish.value)));
      var spoken := noted.(ready := Push(Push(noted.ready, delta.reasoning, true), delta.content, false));
      ObserveCallsIsFaithful(policy, spoken, delta.calls, parts);
    }
  }

  /** Without a failure, every slot depends only on its own sequence of deltas. */
  lemma {:induction false} SlotsDependOnTheirOwnDeltas(policy: Policy, frames: seq<Frame>)
    requires !Run(policy, frames).closed
    ensures Faithful(policy, Run(policy, frames), AllParts(frames))
  {
    if frames != [] {
      var n := |frames| - 1;
      if Run(policy, frames[..n]).closed {
        StaysClosed(policy, Run(policy, frames[..n]), frames[n]);
      }
      SlotsDependOnTheirOwnDeltas(policy, frames[..n]);
      ObserveIsFaithful(policy, Run(policy, frames[..n]), frames[n], AllParts(frames[..n]));
    }
  }

  lemma {:induction false} CallsStayClosed(policy: Policy, s: State, parts: seq<CallPart>)
    requires s.closed
    ensures ObserveCalls(policy, s, parts).closed
  {
    if parts != [] {
      CallsStayClosed(policy, s, parts[..|parts| - 1]);
    }
  }

  lemma StaysClosed(policy: Policy, s: State, frame: Frame)
    requires s.closed
    ensures Observe(policy, s, frame).closed
  {
    if frame.choice.Some? && frame.choice.value.delta.Some? {
      var told := if frame.usage.None? then s else s.(usage := Some(DecodeUsage(frame.usage.value)));
      var choice, delta := frame.choice.value, frame.choice.value.delta.value;
      var noted := if choice.finish.None? then told else told.(finish := Some(DecodeFinish(choice.finish.value)));
      var spoken := noted.(ready := Push(Push(noted.ready, delta.reasoning, true), delta.content, false));
      CallsStayClosed(policy, spoken, delta.calls);
    }
  }

  // ---- confluence ----------------------------------------------------------------------------------

  lemma {:induction false} PaddingReportsNothing(calls: seq<Partial>, length: nat)
    ensures Reports(Grown(calls, length)) == Reports(calls)
    ensures (exists call <- Grown(calls, length) :: Unusable(call)) <==> exists call <- calls :: Unusable(call)
    decreases length
  {
    if |calls| < length {
      var padded := Grown(calls, length);
      PaddingReportsNothing(calls, length - 1);
      assert padded[..length - 1] == Grown(calls, length - 1);
      assert padded == padded[..length - 1] + [EMPTY];
      assert Report(EMPTY, length - 1) == [];
    }
  }

  // ---- what the frames say besides ------------------------------------------------------------------

  /** The usage of the last frame that reports one. */
  function LastUsage(frames: seq<Frame>): Option<Usage> {
    if frames == [] then None
    else
      var last := frames[|frames| - 1];
      if last.usage.Some? then Some(DecodeUsage(last.usage.value)) else LastUsage(frames[..|frames| - 1])
  }

  function FinishOf(frame: Frame): Option<string> {
    if frame.choice.None? then None else frame.choice.value.finish
  }

  /** The last finish reason given. */
  function LastFinish(frames: seq<Frame>): Option<Finish> {
    if frames == [] then None
    else
      var last := FinishOf(frames[|frames| - 1]);
      if last.Some? then Some(DecodeFinish(last.value)) else LastFinish(frames[..|frames| - 1])
  }

  /** A non-empty text, as the event it is reported by. */
  function Spoken(text: Option<string>, reasoning: bool): seq<Told> {
    if text.None? || text.value == "" then []
    else [if reasoning then ReasoningDelta(text.value) else TextDelta(text.value)]
  }

  function SaidBy(frame: Frame): seq<Told> {
    if frame.choice.None? || frame.choice.value.delta.None? then []
    else Spoken(frame.choice.value.delta.value.reasoning, true) + Spoken(frame.choice.value.delta.value.content, false)
  }

  /** The reasoning and text of the frames, in order. */
  function Said(frames: seq<Frame>): seq<Told> {
    if frames == [] then [] else Said(frames[..|frames| - 1]) + SaidBy(frames[|frames| - 1])
  }

  lemma PushIsSpoken(ready: seq<Told>, text: Option<string>, reasoning: bool)
    ensures Push(ready, text, reasoning) == ready + Spoken(text, reasoning)
  {
    NothingMore(ready);
  }

  lemma {:induction false} CallsTouchOnlyCalls(policy: Policy, s: State, parts: seq<CallPart>)
    requires !ObserveCalls(policy, s, parts).closed
    ensures var s' := ObserveCalls(policy, s, parts); s' == s.(calls := s'.calls)
  {
    if parts != [] {
      CallsTouchOnlyCalls(policy, s, parts[..|parts| - 1]);
    }
  }

  lemma ObserveSays(policy: Policy, s: State, frame: Frame)
    requires !s.closed && !Observe(policy, s, frame).closed
    ensures var s' := Observe(policy, s, frame);
            && s'.usage == (if frame.usage.Some? then Some(DecodeUsage(frame.usage.value)) else s.usage)
            && s'.finish == (if FinishOf(frame).Some? then Some(DecodeFinish(FinishOf(frame).value)) else s.finish)
            && s'.ready == s.ready + SaidBy(frame)
  {
    var told := if frame.usage.None? then s else s.(usage := Some(DecodeUsage(frame.usage.value)));
    NothingMore(s.ready);
    if frame.choice.Some? && frame.choice.value.delta.Some? {
      var choice, delta := frame.choice.value, frame.choice.value.delta.value;
      var noted := if choice.finish.None? then told else told.(finish := Some(DecodeFinish(choice.finish.value)));
      var spoken := noted.(ready := Push(Push(noted.ready, delta.reasoning, true), delta.content, false));
      PushIsSpoken(s.ready, delta.reasoning, true);
      PushIsSpoken(Push(s.ready, delta.reasoning, true), delta.content, false);
      Regrouped(s.ready, Spoken(delta.reasoning, true), Spoken(delta.content, false));
      CallsTouchOnlyCalls(policy, spoken, delta.calls);
    }
  }

  /** Without a failure, the queue, the usage and the finish reason are what the frames say. */
  lemma {:induction false} RunSays(policy: Policy, frames: seq<Frame>)
    requires !Run(policy, frames).closed
    ensures var s := Run(policy, frames);
            s.ready == Said(frames) && s.usage == LastUsage(frames) && s.finish == LastFinish(frames)
  {
    if frames != [] {
      var n := |frames| - 1;
      if Run(policy, frames[..n]).closed {
        StaysClosed(policy, Run(policy, frames[..n]), frames[n]);
      }
      RunSays(policy, frames[..n]);
      ObserveSays(policy, Run(policy, frames[..n]), frames[n]);
    }
  }

  /** Two bodies that say the same: the same deltas for each call, and the same last usage and finish reason. */
  ghost predicate SayTheSame(one: seq<Frame>, other: seq<Frame>) {
    && (forall index: nat :: Own(AllParts(one), index) == Own(AllParts(other), index))
    && LastUsage(one) == LastUsage(other) && LastFinish(one) == LastFinish(other)
  }

  /** The usage and the end. */
  function Rest(s: State): seq<Told> {
    (if s.usage.None? then [] else [Spent(s.usage.value)]) + [Finished(s.finish.Or(Stop, reason => reason))]
  }

  /** What closing adds to the queue; none when the close fails. */
  function Ending(policy: Policy, s: State): Option<seq<Told>> {
    if policy.limits.Some? && exists call <- s.calls :: Unusable(call) then None
    else Some(Reports(s.calls) + Rest(s))
  }

  lemma CloseEnds(policy: Policy, s: State)
    requires !s.closed
    ensures Close(policy, s)
         == if Ending(policy, s).None? then s.Fail(policy, BadCall)
            else State(s.ready + Ending(policy, s).value, [], None, None, true)
  {
    if Ending(policy, s).Some? {
      var usage: seq<Told> := if s.usage.None? then [] else [Spent(s.usage.value)];
      var end: seq<Told> := [Finished(s.finish.Or(Stop, reason => reason))];
      Regrouped(s.ready, Reports(s.calls), usage);
      Regrouped(s.ready, Reports(s.calls) + usage, end);
      Regrouped(Reports(s.calls), usage, end);
    }
  }

  /**
    Two streams that say the same, however they cut their deltas into frames and interleave the calls,
    close alike: what closing adds, or that it fails, is the same. If their text is the same too, the
    reader has the very same events.
   */
  lemma CallsAreConfluent(policy: Policy, one: seq<Frame>, other: seq<Frame>)
    requires !Run(policy, one).closed && !Run(policy, other).closed && SayTheSame(one, other)
    ensures Ending(policy, Run(policy, one)) == Ending(policy, Run(policy, other))
    ensures Ending(policy, Run(policy, one)).Some? ==>
              && Close(policy, Run(policy, one)).ready == Said(one) + Ending(policy, Run(policy, one)).value
              && Close(policy, Run(policy, other)).ready == Said(other) + Ending(policy, Run(policy, one)).value
    ensures Ending(policy, Run(policy, one)).None? || Said(one) == Said(other) ==>
              Close(policy, Run(policy, one)) == Close(policy, Run(policy, other))
  {
    SlotsDependOnTheirOwnDeltas(policy, one);
    SlotsDependOnTheirOwnDeltas(policy, other);
    SameSlotsSameReports(Run(policy, one).calls, Run(policy, other).calls);
    RunSays(policy, one);
    RunSays(policy, other);
    CloseEnds(policy, Run(policy, one));
    CloseEnds(policy, Run(policy, other));
  }

  lemma SameSlotsSameReports(a: seq<Partial>, b: seq<Partial>)
    requires |a| <= MAX_TOOL_CALLS && |b| <= MAX_TOOL_CALLS && forall index: nat :: SlotAt(a, index) == SlotAt(b, index)
    ensures Reports(a) == Reports(b)
    ensures (exists call <- a :: Unusable(call)) <==> exists call <- b :: Unusable(call)
  {
    PaddingReportsNothing(a, MAX_TOOL_CALLS);
    PaddingReportsNothing(b, MAX_TOOL_CALLS);
    PaddedSlots(a, MAX_TOOL_CALLS);
    PaddedSlots(b, MAX_TOOL_CALLS);
    assert Grown(a, MAX_TOOL_CALLS) == Grown(b, MAX_TOOL_CALLS);
  }

  lemma PaddedSlots(calls: seq<Partial>, length: nat)
    requires |calls| <= length
    ensures |Grown(calls, length)| == length
    ensures forall index: nat | index < length :: Grown(calls, length)[index] == SlotAt(calls, index)
  {}

  // ---- concatenate, then judge ---------------------------------------------------------------------

  function Texts(own: seq<CallPart>): string {
    if own == [] then "" else Texts(own[..|own| - 1]) + own[|own| - 1].Added()
  }

  /** The last name the deltas give; empty until one does. */
  function NameOf(own: seq<CallPart>): string {
    if own == [] then "" else NonEmpty(own[|own| - 1].Name(), NameOf(own[..|own| - 1]))
  }

  function IdOf(own: seq<CallPart>): string {
    if own == [] then "" else NonEmpty(own[|own| - 1].id, IdOf(own[..|own| - 1]))
  }

  /** Some delta with a function brought everything so far past what its name, so far, allows. */
  predicate EverTooLong(limits: seq<(string, nat)>, own: seq<CallPart>) {
    own != []
    && (|| EverTooLong(limits, own[..|own| - 1])
        || (own[|own| - 1].body.Some? && Partial("", NameOf(own), Texts(own), false).TooLong(limits)))
  }

  /** A call is its deltas' last id and name and the concatenation of their arguments, unless ever too long. */
  lemma {:induction false} AssembledIsJudged(policy: Policy, own: seq<CallPart>)
    ensures Assembled(policy, own)
         == Partial(IdOf(own), NameOf(own),
                    if EverTooLong(policy.arguments, own) then "" else Texts(own),
                    EverTooLong(policy.arguments, own))
  {
    if own != [] {
      var n := |own| - 1;
      AssembledIsJudged(policy, own[..n]);
      if own[n].body.None? {
        assert Texts(own[..n]) + "" == Texts(own[..n]);
      }
    }
  }

  /** Every delta that names its call names it `name`. */
  predicate NamedOnly(own: seq<CallPart>, name: string) {
    forall part <- own :: NonEmpty(part.Name(), name) == name
  }

  lemma {:induction false} NameIsOnly(own: seq<CallPart>, name: string)
    requires NamedOnly(own, name)
    ensures NameOf(own) == "" || NameOf(own) == name
  {
    if own != [] {
      assert own[|own| - 1] in own;
      NameIsOnly(own[..|own| - 1], name);
    }
  }

  /** Whether text of this length is too long for a call of this name, or for one not named yet. */
  predicate Over(limits: seq<(string, nat)>, name: string, length: nat) {
    || (limits != [] && name == "" && RECORD_BYTES_MAX < length)
    || (LimitFor(limits, name).Some? && LimitFor(limits, name).value < length)
  }

  predicate OverAt(limits: seq<(string, nat)>, own: seq<CallPart>, k: nat)
    requires k <= |own|
  {
    Over(limits, NameOf(own[..k]), |Texts(own[..k])|)
  }

  /** For every call, renamed or not, under any limits: ever too long means too long after some of its deltas. */
  lemma {:induction false} TooLongExactlyWhen(limits: seq<(string, nat)>, own: seq<CallPart>)
    ensures EverTooLong(limits, own) <==> exists k :: 0 <= k <= |own| && OverAt(limits, own, k)
  {
    var all := |own|;
    assert own[..all] == own;
    if own != [] {
      var n := |own| - 1;
      TooLongExactlyWhen(limits, own[..n]);
      forall k | 0 <= k <= n ensures OverAt(limits, own[..n], k) == OverAt(limits, own, k) {
        assert own[..n][..k] == own[..k];
      }
      NothingMore(Texts(own[..n]));
      assert own[n].body.None? ==> (OverAt(limits, own, all) <==> OverAt(limits, own, n));
      assert own[n].body.Some? ==> (OverAt(limits, own, all)
                                    <==> Partial("", NameOf(own), Texts(own), false).TooLong(limits));
    }
  }

  /** The deltas of a call up to the one that first names it. */
  function Unnamed(own: seq<CallPart>): seq<CallPart> {
    if NameOf(own) == "" then own else Unnamed(own[..|own| - 1])
  }

  /**
    For a call named once, early or late, under any limits: it is ever too long exactly when the whole
    of its arguments is too long for its name, or what came before its name was too long for a call
    not named yet.
   */
  lemma {:induction false} TooLongWhenNamedOnce(limits: seq<(string, nat)>, own: seq<CallPart>, name: string)
    requires name != "" && NamedOnly(own, name)
    ensures EverTooLong(limits, own)
            <==> Over(limits, NameOf(own), |Texts(own)|) || Over(limits, "", |Texts(Unnamed(own))|)
  {
    if own != [] {
      var n := |own| - 1;
      assert own[n] in own;
      TooLongWhenNamedOnce(limits, own[..n], name);
      NameIsOnly(own, name);
      NameIsOnly(own[..n], name);
      NothingMore(Texts(own[..n]));
    }
  }

  /** What came before the name is no longer than the whole. */
  lemma {:induction false} UnnamedIsShorter(own: seq<CallPart>)
    ensures |Texts(Unnamed(own))| <= |Texts(own)|
  {
    if NameOf(own) != "" {
      UnnamedIsShorter(own[..|own| - 1]);
    }
  }

  // ---- what the reader gets ------------------------------------------------------------------------

  /** While the stream is open no call has been reported, and the slot vector stays within its bound. */
  predicate Waiting(s: State) {
    |s.calls| <= MAX_TOOL_CALLS && forall e <- s.ready :: !e.CallDelta?
  }

  lemma {:induction false} CallsWait(policy: Policy, s: State, parts: seq<CallPart>)
    requires Waiting(s)
    ensures Waiting(ObserveCalls(policy, s, parts))
  {
    if parts != [] {
      CallsWait(policy, s, parts[..|parts| - 1]);
    }
  }

  /** Whatever the frames, failing or not, there are never more than 256 slots and no call is reported early. */
  lemma {:induction false} RunWaits(policy: Policy, frames: seq<Frame>)
    ensures Waiting(Run(policy, frames))
  {
    if frames != [] {
      RunWaits(policy, frames[..|frames| - 1]);
      ObserveWaits(policy, Run(policy, frames[..|frames| - 1]), frames[|frames| - 1]);
    }
  }

  lemma ObserveWaits(policy: Policy, s: State, frame: Frame)
    requires Waiting(s)
    ensures Waiting(Observe(policy, s, frame))
  {
    if frame.choice.Some? && frame.choice.value.delta.Some? {
      var told := if frame.usage.None? then s else s.(usage := Some(DecodeUsage(frame.usage.value)));
      var choice, delta := frame.choice.value, frame.choice.value.delta.value;
      var noted := if choice.finish.None? then told else told.(finish := Some(DecodeFinish(choice.finish.value)));
      var spoken := noted.(ready := Push(Push(noted.ready, delta.reasoning, true), delta.content, false));
      CallsWait(policy, spoken, delta.calls);
    }
  }

  lemma {:induction false} QuietDeliversNothing(events: seq<Told>, index: nat)
    requires forall e <- events :: !e.CallDelta?
    ensures Delivered(events, index) == ""
  {
    if events != [] {
      assert events[|events| - 1] in events;
      QuietDeliversNothing(events[..|events| - 1], index);
    }
  }

  lemma ReportDelivers(call: Partial, at: nat, index: nat)
    ensures Delivered(Report(call, at), index)
         == if at == index && ValidName(call.name) then (if call.oversized then OVERSIZED else call.arguments) else ""
  {
    if call.name != "" {
      DeliveredOne(Report(call, at)[0], index);
    }
  }

  lemma {:induction false} ReportsDeliver(calls: seq<Partial>, index: nat)
    ensures Delivered(Reports(calls), index) == Delivered(Report(SlotAt(calls, index), index), index)
  {
    if calls == [] {
      ReportDelivers(EMPTY, index, index);
    } else {
      var n := |calls| - 1;
      var slot := SlotAt(calls[..n], index);
      ReportsDeliver(calls[..n], index);
      DeliveredJoins(Reports(calls[..n]), Report(calls[n], n), index);
      ReportDelivers(calls[n], n, index);
      ReportDelivers(slot, index, index);
      ReportDelivers(calls[n], index, index);
      assert index != n ==> slot == SlotAt(calls, index);
    }
  }

  lemma QuietAround(before: seq<Told>, middle: seq<Told>, after: seq<Told>, index: nat)
    requires (forall e <- before :: !e.CallDelta?) && (forall e <- after :: !e.CallDelta?)
    ensures Delivered(before + (middle + after), index) == Delivered(middle, index)
  {
    QuietDeliversNothing(before, index);
    QuietDeliversNothing(after, index);
    DeliveredJoins(middle, after, index);
    DeliveredJoins(before, middle + after, index);
    NothingMore(Delivered(middle, index));
  }

  lemma CloseDelivers(policy: Policy, s: State, index: nat)
    requires !s.closed && Waiting(s) && Ending(policy, s).Some?
    ensures Delivered(Close(policy, s).ready, index) == Delivered(Report(SlotAt(s.calls, index), index), index)
  {
    CloseEnds(policy, s);
    ReportsDeliver(s.calls, index);
    QuietAround(s.ready, Reports(s.calls), Rest(s), index);
  }

  /**
    What the reader has for a call once the stream has ended, for every limit and however its deltas
    name it: nothing when its last name is not usable, the oversized marker when some part of it was
    too long, and otherwise its whole concatenation.
   */
  lemma CallIsDelivered(policy: Policy, frames: seq<Frame>, index: nat)
    requires !Run(policy, frames).closed && Ending(policy, Run(policy, frames)).Some?
    ensures var own := Own(AllParts(frames), index);
            Delivered(Close(policy, Run(policy, frames)).ready, index)
              == if !ValidName(NameOf(own)) then ""
                 else if EverTooLong(policy.arguments, own) then OVERSIZED
                 else Texts(own)
  {
    var own := Own(AllParts(frames), index);
    SlotsDependOnTheirOwnDeltas(policy, frames);
    AssembledIsJudged(policy, own);
    RunWaits(policy, frames);
    CloseDelivers(policy, Run(policy, frames), index);
    ReportDelivers(SlotAt(Run(policy, frames).calls, index), index, index);
  }

  /**
    For a call that was named once, with its name before, between or after its arguments: the oversized
    marker exactly when the whole is past the tool's limit or what came before the name was too long for
    a call not named yet; and for limits no larger than one record the second never decides.
   */
  lemma OneCallIsJudgedWhole(policy: Policy, frames: seq<Frame>, index: nat, name: string, limit: nat)
    requires !Run(policy, frames).closed && Ending(policy, Run(policy, frames)).Some?
    requires LimitFor(policy.arguments, name) == Some(limit)
    requires ValidName(name) && NamedOnly(Own(AllParts(frames), index), name)
    requires NameOf(Own(AllParts(frames), index)) == name
    ensures var own := Own(AllParts(frames), index);
            Delivered(Close(policy, Run(policy, frames)).ready, index)
              == if Over(policy.arguments, "", |Texts(Unnamed(own))|) then OVERSIZED else Judged(limit, Texts(own))
    ensures LimitFor(policy.arguments, "").None? && limit <= RECORD_BYTES_MAX ==>
              Delivered(Close(policy, Run(policy, frames)).ready, index)
                == Judged(limit, Texts(Own(AllParts(frames), index)))
  {
    var own := Own(AllParts(frames), index);
    CallIsDelivered(policy, frames, index);
    TooLongWhenNamedOnce(policy.arguments, own, name);
    UnnamedIsShorter(own);
  }
}
