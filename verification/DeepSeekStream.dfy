/** The chat-completions stream: calls are assembled from deltas and reported when the stream ends. */
module DeepSeekStream {
  import opened Wrappers
  import opened Stream

  const MAX_TOOL_CALLS: nat := 256

  // ---- frames --------------------------------------------------------------------------------------

  datatype Index = Absent | NotANumber | At(n: nat)
  /** A delta's `function` object; each field is none when it is absent or not a string. */
  datatype Function = Function(name: Option<string>, arguments: Option<string>)
  datatype CallPart = CallPart(index: Index, id: Option<string>, body: Option<Function>) {
    function Name(): Option<string> {
      if body.None? then None else body.value.name
    }

    /** The argument text the delta adds. */
    function Added(): string {
      if body.None? || body.value.arguments.None? then "" else body.value.arguments.value
    }
  }
  datatype Delta = Delta(reasoning: Option<string>, content: Option<string>, calls: seq<CallPart>)
  datatype Choice = Choice(finish: Option<string>, delta: Option<Delta>)
  datatype Frame = Frame(usage: Option<Usage>, choice: Option<Choice>, size: nat)

  /** A non-empty string, or what was there before. */
  function NonEmpty(text: Option<string>, otherwise: string): string {
    if text.None? || text.value == "" then otherwise else text.value
  }

  function DecodeUsage(usage: Usage): Usage {
    Usage(Number(usage.prompt), Number(usage.completion), Number(usage.reasoning), Number(usage.hit),
          Number(usage.miss))
  }

  function DecodeFinish(raw: string): Finish {
    if raw == "stop" then Stop
    else if raw == "tool_calls" then ToolCalls
    else if raw == "length" then Length
    else if raw == "content_filter" then ContentFilter
    else Unknown(raw)
  }

  // ---- state ---------------------------------------------------------------------------------------

  datatype Policy = Policy(limits: Option<Limits>, arguments: seq<(string, nat)>)

  datatype Partial = Partial(id: string, name: string, arguments: string, oversized: bool) {
    predicate Empty() {
      id == "" && name == "" && arguments == ""
    }

    /** Whether the arguments buffered so far are too long for the tool, or for a tool not named yet. */
    predicate TooLong(limits: seq<(string, nat)>) {
      || (limits != [] && name == "" && RECORD_BYTES_MAX < |arguments|)
      || (LimitFor(limits, name).Some? && LimitFor(limits, name).value < |arguments|)
    }
  }

  const EMPTY := Partial("", "", "", false)

  type Told = Event<()>

  datatype State = State(
    ready: seq<Told>, calls: seq<Partial>, usage: Option<Usage>, finish: Option<Finish>, closed: bool)
  {
    function Fail(policy: Policy, why: Trouble): State {
      if policy.limits.Some? then State([Error(why)], [], None, None, true)
      else this.(ready := ready + [Error(why)], closed := true)
    }
  }

  const FRESH := State([], [], None, None, false)

  // ---- one delta of a call -------------------------------------------------------------------------

  function RawIndex(part: CallPart): nat {
    if part.index.At? then part.index.n else 0
  }

  /** The slot a delta belongs to; an index beyond any plausible response falls into slot zero. */
  function SlotIndex(part: CallPart): nat {
    if RawIndex(part) < MAX_TOOL_CALLS then RawIndex(part) else 0
  }

  /** What the response budgets say of a delta, before anything of it is kept. */
  function CallTrouble(limits: Limits, calls: seq<Partial>, part: CallPart): Option<Trouble> {
    var index := RawIndex(part);
    if part.index.NotANumber? || limits.toolSlots <= index then Some(BadIndex)
    else
      var slot := if index < |calls| then calls[index] else EMPTY;
      var id := NonEmpty(part.id, slot.id);
      var name := NonEmpty(part.Name(), slot.name);
      if limits.eventBytes < |id| + |name| + |slot.arguments| + |part.Added()| then Some(BadCall) else None
  }

  /** Folds one delta into its call. */
  function Fold(policy: Policy, slot: Partial, part: CallPart): Partial {
    var named := slot.(id := NonEmpty(part.id, slot.id));
    if part.body.None? then named
    else
      var grown := named.(
        name := NonEmpty(part.Name(), slot.name),
        arguments := if slot.oversized then slot.arguments else slot.arguments + part.Added());
      if grown.TooLong(policy.arguments) then grown.(oversized := true, arguments := "") else grown
  }

  function Grown(calls: seq<Partial>, length: nat): seq<Partial> {
    if |calls| < length then calls + seq(length - |calls|, _ => EMPTY) else calls
  }

  function ObserveCall(policy: Policy, s: State, part: CallPart): State {
    var trouble := if policy.limits.None? then None else CallTrouble(policy.limits.value, s.calls, part);
    if trouble.Some? then s.Fail(policy, trouble.value)
    else
      var index := SlotIndex(part);
      var calls := Grown(s.calls, index + 1);
      s.(calls := calls[index := Fold(policy, calls[index], part)])
  }

  /** The deltas of one frame, until one of them fails. */
  function ObserveCalls(policy: Policy, s: State, parts: seq<CallPart>): State {
    if parts == [] then s
    else
      var before := ObserveCalls(policy, s, parts[..|parts| - 1]);
      if policy.limits.Some? && before.closed then before else ObserveCall(policy, before, parts[|parts| - 1])
  }

  // ---- one frame -----------------------------------------------------------------------------------

  function Push(ready: seq<Told>, text: Option<string>, reasoning: bool): seq<Told> {
    if text.None? || text.value == "" then ready
    else ready + [if reasoning then ReasoningDelta(text.value) else TextDelta(text.value)]
  }

  function ObserveChoice(policy: Policy, s: State, choice: Choice): State {
    var told := if choice.finish.None? then s else s.(finish := Some(DecodeFinish(choice.finish.value)));
    if choice.delta.None? then told
    else
      var delta := choice.delta.value;
      var spoken := told.(ready := Push(Push(told.ready, delta.reasoning, true), delta.content, false));
      ObserveCalls(policy, spoken, delta.calls)
  }

  function Observe(policy: Policy, s: State, frame: Frame): State {
    if policy.limits.Some? && s.closed then s
    else if policy.limits.Some? && policy.limits.value.eventBytes < frame.size then s.Fail(policy, FrameTooLarge)
    else
      var told := if frame.usage.None? then s else s.(usage := Some(DecodeUsage(frame.usage.value)));
      if frame.choice.None? then told else ObserveChoice(policy, told, frame.choice.value)
  }

  // ---- closing -------------------------------------------------------------------------------------

  /** A call the response budgets refuse to report: not empty, and without an id or a usable name. */
  predicate Unusable(call: Partial) {
    !call.Empty() && (call.id == "" || !ValidName(call.name))
  }

  /** What one assembled call reports; an unnamed one reports nothing. */
  function Report(call: Partial, index: nat): seq<Told> {
    if call.name == "" then []
    else if !ValidName(call.name) then [Error(BadName)]
    else [CallDelta(index, Some(call.id), Some(call.name), if call.oversized then OVERSIZED else call.arguments)]
  }

  function Reports(calls: seq<Partial>): seq<Told> {
    if calls == [] then [] else Reports(calls[..|calls| - 1]) + Report(calls[|calls| - 1], |calls| - 1)
  }

  function Close(policy: Policy, s: State): State {
    if s.closed then s
    else if policy.limits.Some? && exists call <- s.calls :: Unusable(call) then s.Fail(policy, BadCall)
    else
      var usage := if s.usage.None? then [] else [Spent(s.usage.value)];
      State(s.ready + Reports(s.calls) + usage + [Finished(s.finish.Or(Stop, reason => reason))], [], None, None, true)
  }

  // ---- one line --------------------------------------------------------------------------------------

  datatype Line = Garbled | Decoded(frame: Frame)

  function ObserveLine(policy: Policy, s: State, line: Line): State {
    match line
    case Decoded(frame) => Observe(policy, s, frame)
    case Garbled =>
      if policy.limits.None? then s.(ready := s.ready + [Error(NotJson)])
      else if s.closed then s
      else s.Fail(policy, NotJson)
  }
}
