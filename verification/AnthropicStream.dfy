/** The Messages stream: its decoded frames, and what observing one does. */
module AnthropicStream {
  import opened Wrappers
  import opened Messages
  import opened Stream

  const BLOCKS_MAX: nat := 256

  // ---- frames --------------------------------------------------------------------------------------

  datatype Kind = ToolUseBlock | TextBlock | ThinkingBlock | RedactedBlock | OtherBlock
  datatype Field = TextField | ThinkingField | SignatureField | PartialJson

  /**
    A block object of the response. A text field is none when the object lacks it or holds
    something that is not a string; `rest` is everything the decoder never touches.
   */
  datatype Stored = Stored(
    kind: Kind,
    id: string,
    name: Option<string>,
    text: Option<string>,
    thinking: Option<string>,
    signature: Option<string>,
    input: Option<Json>,
    rest: Json)
  {
    function Of(field: Field): Option<string> {
      match field
      case TextField => text
      case ThinkingField => thinking
      case SignatureField => signature
      case PartialJson => None
    }

    function Append(field: Field, fragment: string): Stored {
      match field
      case TextField => this.(text := Some(text.Or("", t => t) + fragment))
      case ThinkingField => this.(thinking := Some(thinking.Or("", t => t) + fragment))
      case SignatureField => this.(signature := Some(signature.Or("", t => t) + fragment))
      case PartialJson => this
    }

    predicate Unsigned() {
      kind == ThinkingBlock && (signature.None? || signature.value == "")
    }
  }

  /** A `content_block` value: an object of `size` serialized bytes, or something else. */
  datatype Opening = NotAnObject(size: nat) | Opened(block: Stored, size: nat)
  /** One `delta` value; the fragment is none when the field is not a string. */
  datatype Delta = Fragment(field: Field, text: Option<string>) | OtherDelta
  datatype Counts = Counts(input: nat, read: nat, creation: nat, output: nat)

  datatype Body =
    | MessageStart(usage: Option<Counts>)
    | BlockStart(opening: Option<Opening>)
    | BlockDelta(delta: Option<Delta>)
    | BlockStop
    | MessageDelta(output: Option<nat>, stop: Option<string>)
    | MessageStop
    | ErrorFrame(message: string)
    | OtherFrame

  datatype Index = Absent | NotANumber | At(n: nat)

  datatype Frame = Frame(index: Index, body: Body, size: nat) {
    /** An absurd index is saturated, so that two blocks never collide on zero. */
    function Slot(): nat {
      if index.At? then Min(index.n, U32_MAX) else 0
    }

    predicate OpensCall() {
      && body.BlockStart? && body.opening.Some? && body.opening.value.Opened?
      && body.opening.value.block.kind == ToolUseBlock
    }

    predicate AddsArguments() {
      body.BlockDelta? && body.delta.Some? && body.delta.value.Fragment? && body.delta.value.field == PartialJson
    }

    /** The argument text the frame adds; nothing when the field is not a string. */
    function Added(): string
      requires AddsArguments()
    {
      if body.delta.value.text.None? then "" else body.delta.value.text.value
    }
  }

  /** A call is limited exactly when an entry of the policy names its tool, and by the first that does. */
  lemma CallsAreLimited(policy: Policy, block: Stored)
    ensures match policy.CallLimit(block)
            case Some(limit) =>
              block.name.Some? &&
              exists k :: 0 <= k < |policy.arguments| && policy.arguments[k] == (block.name.value, limit)
                          && forall j :: 0 <= j < k ==> policy.arguments[j].0 != block.name.value
            case None =>
              block.name.Some? ==> forall k :: 0 <= k < |policy.arguments| ==> policy.arguments[k].0 != block.name.value
  {
    if block.name.Some? {
      LimitIsTheFirst(policy.arguments, block.name.value);
    }
  }

  /** Two blocks never collide: indices a `u32` holds keep apart, and one it does not keeps off all the others. */
  lemma SlotsDoNotCollide(one: Frame, other: Frame)
    requires one.index.At? && other.index.At? && one.index.n < other.index.n
    ensures one.index.n < U32_MAX ==> one.Slot() == one.index.n && one.Slot() < other.Slot()
  {}

  function Saturated(a: nat, b: nat): nat {
    if U32_MAX < a + b then U32_MAX else a + b
  }

  function Larger(a: nat, b: nat): nat {
    if a < b then b else a
  }

  function DecodeStop(raw: string): Finish {
    if raw == "end_turn" || raw == "stop_sequence" then Stop
    else if raw == "tool_use" then ToolCalls
    else if raw == "max_tokens" then Length
    else if raw == "refusal" then ContentFilter
    else Unknown(raw)
  }

  // ---- state ---------------------------------------------------------------------------------------

  /** What is fixed before the first frame: the caller's budgets and the library calls. */
  datatype Policy = Policy(
    limits: Option<Limits>,
    arguments: seq<(string, nat)>,
    parse: string -> Option<Json>,
    blank: string -> bool,
    replaySize: seq<Stored> -> nat)
  {
    function CallLimit(block: Stored): Option<nat> {
      if block.name.None? then None else LimitFor(arguments, block.name.value)
    }

    /** The arguments a stopped call carries; blank text means none were given. */
    function Input(raw: string): Option<Json> {
      parse(if blank(raw) then "{}" else raw)
    }
  }

  datatype Held = Held(limit: nat, raw: string, oversized: bool) {
    function Released(): string {
      if oversized then OVERSIZED else raw
    }

    function Take(fragment: string): Held {
      if oversized then this
      else if limit < |raw + fragment| then Held(limit, "", true)
      else Held(limit, raw + fragment, false)
    }
  }

  datatype State = State(
    ready: seq<Event<Stored>>,
    tokens: Counts,
    finish: Option<Finish>,
    closed: bool,
    blocks: map<nat, Stored>,
    arguments: map<nat, string>,
    bytes: nat,
    calls: set<nat>,
    held: map<nat, Held>,
    void: bool)
  {
    function Push(event: Event<Stored>): State {
      this.(ready := ready + [event])
    }

    function Tell(event: Option<Event<Stored>>): State {
      if event.None? then this else Push(event.value)
    }

    function Fail(policy: Policy, why: Trouble): State {
      if policy.limits.Some? then
        this.(ready := [Error(why)], blocks := map[], arguments := map[], finish := None, closed := true)
      else
        this.(ready := ready + [Error(why)], closed := true)
    }

    predicate IsOversized(index: nat) {
      index in held && held[index].oversized
    }
  }

  const FRESH := State([], Counts(0, 0, 0, 0), None, false, map[], map[], 0, {}, map[], false)

  // ---- observing one frame -------------------------------------------------------------------------

  /** What the response budgets say of a frame, before anything of it is kept. */
  function ReplayTrouble(limits: Limits, s: State, frame: Frame): Option<Trouble> {
    if frame.index.NotANumber? || (frame.index.At? && limits.toolSlots <= frame.index.n) then Some(BadIndex)
    else if frame.body.BlockStart? && limits.toolSlots <= |s.blocks| then Some(TooManyBlocks)
    else
      var added := match frame.body
        case BlockStart(Some(opening)) => opening.size
        case BlockDelta(Some(Fragment(_, Some(text)))) => |text|
        case _ => 0;
      if limits.eventBytes < s.bytes + added then Some(ReplayTooLarge) else None
  }

  /** The managed argument limits, applied before any replay or event sees the frame. */
  function LimitFrame(policy: Policy, s: State, frame: Frame): State {
    var index := frame.Slot();
    if frame.OpensCall() then
      var limit := policy.CallLimit(frame.body.opening.value.block);
      s.(calls := s.calls + {index},
         held := if limit.None? then s.held else s.held[index := Held(limit.value, "", false)])
    else if frame.AddsArguments() then
      if index !in s.calls then s.Fail(policy, EarlyArguments)
      else if index !in s.held || s.held[index].oversized then s
      else
        var call := s.held[index].Take(frame.Added());
        if call.oversized then s.(held := s.held[index := call], arguments := s.arguments - {index}, void := true)
        else s.(held := s.held[index := call])
    else s
  }

  function StoreBlock(policy: Policy, s: State, index: nat, opening: Opening): State {
    if opening.NotAnObject? then s.Fail(policy, BlockNotAnObject)
    else if BLOCKS_MAX <= |s.blocks| then s.Fail(policy, TooManyBlocks)
    else if RECORD_BYTES_MAX < opening.size then s.Fail(policy, ReplayTooLarge)
    else
      var grown := s.(bytes := s.bytes + opening.size);
      if RECORD_BYTES_MAX < grown.bytes then grown.Fail(policy, ReplayTooLarge)
      else grown.(blocks := s.blocks[index := opening.block])
  }

  function AbsorbDelta(policy: Policy, s: State, index: nat, delta: Delta): State {
    if delta.OtherDelta? || delta.text.None? then s
    else
      var grown := s.(bytes := s.bytes + |delta.text.value|);
      if RECORD_BYTES_MAX < grown.bytes then grown.Fail(policy, ReplayTooLarge)
      else if delta.field == PartialJson then
        if s.IsOversized(index) then grown
        else
          var raw := if index in s.arguments then s.arguments[index] else "";
          grown.(arguments := s.arguments[index := raw + delta.text.value])
      else if index in s.blocks then
        grown.(blocks := s.blocks[index := s.blocks[index].Append(delta.field, delta.text.value)])
      else grown
  }

  function SealBlock(policy: Policy, s: State, index: nat): State {
    if index !in s.arguments then s
    else
      var input := policy.Input(s.arguments[index]);
      var rest := s.(arguments := s.arguments - {index});
      if input.None? then rest.Fail(policy, BadArguments)
      else if index in s.blocks then rest.(blocks := s.blocks[index := s.blocks[index].(input := input)])
      else rest
  }

  function Bounded(policy: Policy, s: State): State {
    if RECORD_BYTES_MAX < s.bytes then s.Fail(policy, ReplayTooLarge) else s
  }

  /** The replay's part of a frame: a block is stored, grown or sealed, within the record bound. */
  function ObserveReplay(policy: Policy, s: State, frame: Frame): State {
    match frame.body
    case BlockStart(Some(opening)) => StoreBlock(policy, s, frame.Slot(), opening)
    case BlockDelta(Some(delta)) => Bounded(policy, AbsorbDelta(policy, s, frame.Slot(), delta))
    case BlockStop => Bounded(policy, SealBlock(policy, s, frame.Slot()))
    case _ => Bounded(policy, s)
  }

  /** One release: what the block at `index` held becomes one event, and it holds nothing more. */
  function Release(s: State, index: nat): State {
    if index in s.held then
      s.(held := s.held - {index}).Push(CallDelta(index, None, None, s.held[index].Released()))
    else s
  }

  /** A non-empty text is reported, as text or as reasoning. */
  function Told(text: Option<string>, reasoning: bool): Option<Event<Stored>> {
    if text.None? || text.value == "" then None
    else Some(if reasoning then ReasoningDelta(text.value) else TextDelta(text.value))
  }

  /** What opening a tool call reports: the call, or an error when it cannot be named. */
  function CallEvent(index: nat, block: Stored): Event<Stored> {
    if block.id == "" then Error(NoCallId)
    else if block.name.None? || !ValidName(block.name.value) then Error(BadName)
    else CallDelta(index, Some(block.id), block.name, "")
  }

  function OpenToolUse(policy: Policy, s: State, index: nat, block: Stored): State {
    var event := CallEvent(index, block);
    if event.Error? && policy.limits.Some? then s.Fail(policy, event.why) else s.Push(event)
  }

  function ObserveStart(policy: Policy, s: State, index: nat, block: Stored): State {
    if block.kind == ToolUseBlock then OpenToolUse(policy, s, index, block)
    else
      s.Tell(if block.kind == TextBlock then Told(block.text, false)
             else if block.kind == ThinkingBlock then Told(block.thinking, true)
             else None)
  }

  /** What a delta reports; a held call's fragments are not reported. */
  function DeltaEvent(held: bool, index: nat, delta: Delta): Option<Event<Stored>> {
    if delta.OtherDelta? then None
    else match delta.field
      case TextField => Told(delta.text, false)
      case ThinkingField => Told(delta.text, true)
      case PartialJson =>
        if held || delta.text.None? then None else Some(CallDelta(index, None, None, delta.text.value))
      case SignatureField => None
  }

  function ObserveDelta(s: State, index: nat, delta: Delta): State {
    s.Tell(DeltaEvent(index in s.held, index, delta))
  }

  function Raise(tokens: Counts, usage: Counts): Counts {
    Counts(Larger(tokens.input, Number(usage.input)), Larger(tokens.read, Number(usage.read)),
           Larger(tokens.creation, Number(usage.creation)), Larger(tokens.output, Number(usage.output)))
  }

  /** What a `message_delta` changes: the output count never falls, and the last stop reason stands. */
  function ObserveTail(s: State, output: Option<nat>, stop: Option<string>): State {
    s.(tokens := if output.None? then s.tokens
                 else s.tokens.(output := Larger(s.tokens.output, Number(output.value))),
       finish := if stop.None? then s.finish else Some(DecodeStop(stop.value)))
  }

  // ---- closing -------------------------------------------------------------------------------------

  /** The held calls below `end`, released in index order. */
  function ReleaseBelow(s: State, end: nat): State {
    if end == 0 then s else Release(ReleaseBelow(s, end - 1), end - 1)
  }

  /** The values of the keys below `end`, in key order. */
  function ValuesBelow(blocks: map<nat, Stored>, end: nat): seq<Stored> {
    if end == 0 then []
    else ValuesBelow(blocks, end - 1) + if end - 1 in blocks then [blocks[end - 1]] else []
  }

  predicate HasThinking(blocks: seq<Stored>) {
    exists block <- blocks :: block.kind == ThinkingBlock || block.kind == RedactedBlock
  }

  predicate HasUnsigned(blocks: seq<Stored>) {
    exists block <- blocks :: block.Unsigned()
  }

  function PromptTokens(tokens: Counts): nat {
    Saturated(Saturated(tokens.input, tokens.read), tokens.creation)
  }

  function Accounting(tokens: Counts): Usage {
    Usage(PromptTokens(tokens), tokens.output, 0, tokens.read, Saturated(tokens.input, tokens.creation))
  }

  /** The last events of a stream that does not fail. */
  function Conclude(s: State): State {
    var usage := Accounting(s.tokens);
    var told := if 0 < Saturated(usage.prompt, usage.completion) then s.Push(Spent(usage)) else s;
    told.Push(Finished(s.finish.Or(Stop, reason => reason))).(finish := None)
  }

  /** The signed replay of `blocks`, when there is one to give, and the end. */
  function Deliver(policy: Policy, s: State, blocks: seq<Stored>): State {
    if s.void || !HasThinking(blocks) then Conclude(s)
    else if HasUnsigned(blocks) then s.Fail(policy, Unsigned)
    else if policy.limits.Some? && policy.limits.value.eventBytes < policy.replaySize(blocks)
    then s.Fail(policy, ReplayTooLarge)
    else Conclude(s.Push(AssistantReplay(blocks)))
  }

  function Close(policy: Policy, s: State): State {
    if s.closed then s
    else
      var released := ReleaseBelow(s, U32_MAX + 1);
      Deliver(policy, released.(closed := true, blocks := map[]), ValuesBelow(s.blocks, U32_MAX + 1))
  }

  // ---- one frame, one line -------------------------------------------------------------------------

  function Dispatch(policy: Policy, s: State, frame: Frame): State {
    match frame.body
    case MessageStart(Some(usage)) => s.(tokens := Raise(s.tokens, usage))
    case BlockStart(Some(Opened(block, _))) => ObserveStart(policy, s, frame.Slot(), block)
    case BlockDelta(Some(delta)) => ObserveDelta(s, frame.Slot(), delta)
    case BlockStop => Release(s, frame.Slot())
    case MessageDelta(output, stop) => ObserveTail(s, output, stop)
    case MessageStop => Close(policy, s)
    case ErrorFrame(message) => s.Fail(policy, Provider(message))
    case _ => s
  }

  /** What the response budgets refuse outright. */
  function Refusal(policy: Policy, s: State, frame: Frame): Option<Trouble> {
    if policy.limits.None? then None
    else if policy.limits.value.eventBytes < frame.size then Some(FrameTooLarge)
    else ReplayTrouble(policy.limits.value, s, frame)
  }

  function Observe(policy: Policy, s: State, frame: Frame): State {
    var refusal := Refusal(policy, s, frame);
    if policy.limits.Some? && s.closed then s
    else if refusal.Some? then s.Fail(policy, refusal.value)
    else
      var limited := if policy.arguments == [] then s else LimitFrame(policy, s, frame);
      if policy.arguments != [] && limited.closed then limited
      else
        var kept := ObserveReplay(policy, limited, frame);
        if kept.closed then kept else Dispatch(policy, kept, frame)
  }

  datatype Line = Garbled | Decoded(frame: Frame)

  function ObserveLine(policy: Policy, s: State, line: Line): State {
    match line
    case Decoded(frame) => Observe(policy, s, frame)
    case Garbled =>
      if policy.limits.None? then s.Push(Error(NotJson))
      else if s.closed then s
      else s.Fail(policy, NotJson)
  }
}
