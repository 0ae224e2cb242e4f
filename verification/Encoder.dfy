/**
  The Messages request encoder: the canonical turns, the digest a reply is bound to, and the
  decoration that is sent.
*/
module Encoder {
  import opened Wrappers
  import opened Messages

  const PROTOCOL := "anthropic.messages"
  const REPLAY_BLOCKS_MAX: nat := 256

  datatype ToolSchema = ToolSchema(name: string, description: string, parameters: string)

  /** The `system` value a signature is bound to. */
  datatype SystemValue = Absent | Joined(text: string) | Listed(texts: seq<string>)

  /** Everything the provider binds signed thinking to. */
  datatype Prefix = Prefix(system: SystemValue, tools: seq<ToolSchema>, turns: seq<Turn>)

  /** What the encoder is given: the digest, and whether a replay's envelope is in shape and bounds. */
  datatype Provider = Provider(fingerprint: Prefix -> string, enveloped: Replay -> bool)

  ghost predicate Injective(fingerprint: Prefix -> string) {
    forall p, q :: fingerprint(p) == fingerprint(q) ==> p == q
  }

  // ---- system ------------------------------------------------------------------------------------

  predicate IsSpace(c: char) {
    c == ' ' || '\t' <= c <= '\r'
  }

  function TrimStart(text: string): string {
    if text != "" && IsSpace(text[0]) then TrimStart(text[1..]) else text
  }

  function TrimEnd(text: string): string {
    if text != "" && IsSpace(text[|text| - 1]) then TrimEnd(text[..|text| - 1]) else text
  }

  function Trim(text: string): string {
    TrimEnd(TrimStart(text))
  }

  /** What the system messages come to: their trimmed texts, without the blank ones. */
  function SystemParts(messages: seq<Message>): seq<string> {
    if messages == [] then []
    else
      var last := messages[|messages| - 1];
      SystemParts(messages[..|messages| - 1]) +
      (if last.System? && Trim(last.text) != "" then [Trim(last.text)] else [])
  }

  function CanonicalSystem(messages: seq<Message>): SystemValue {
    var parts := SystemParts(messages);
    if parts == [] then Absent else if |parts| == 1 then Joined(parts[0]) else Listed(parts)
  }

  // ---- one message -------------------------------------------------------------------------------

  function EncodeParts(parts: seq<Part>): seq<Block> {
    if parts == [] then []
    else [match parts[0]
          case TextPart(text) => Text(text)
          case ImagePart(mediaType, data) => Image(mediaType, data)] + EncodeParts(parts[1..])
  }

  /** The text of typed results, each part ending in a newline. */
  function JoinedText(parts: seq<Part>): string {
    if parts == [] then ""
    else
      (match parts[0]
       case TextPart(text) => if text != "" && text[|text| - 1] == '\n' then text else text + "\n"
       case ImagePart(_, _) => "") + JoinedText(parts[1..])
  }

  function ResultBlock(message: Message): Block
    requires message.Tool?
  {
    var content :=
      if message.parts.None? then Plain(message.content)
      else if HasImage(message.parts.value) then Parts(message.parts.value)
      else Plain(JoinedText(message.parts.value));
    ToolResult(message.callId, content, message.isError)
  }

  function UserTurn(message: Message): Turn
    requires message.User?
  {
    Turn(FromUser, if message.parts.None? then [Text(message.text)] else EncodeParts(message.parts.value))
  }

  function EncodeCalls(calls: seq<Call>): seq<Block> {
    if calls == [] then []
    else
      var input := if calls[0].arguments.Object? then calls[0].arguments else Object("{}");
      [ToolUse(calls[0].id, calls[0].name, input, None)] + EncodeCalls(calls[1..])
  }

  /** An assistant turn with no admitted replay: its text and calls, without thinking. */
  function NeutralTurn(message: Message): Turn
    requires message.Assistant?
  {
    Turn(FromAssistant, (if message.Reply() != "" then [Text(message.Reply())] else []) + EncodeCalls(message.calls))
  }

  predicate SameCalls(uses: seq<Block>, calls: seq<Call>) {
    |uses| == |calls| &&
    forall k :: 0 <= k < |calls| ==>
      uses[k].ToolUse? && uses[k].id == calls[k].id && uses[k].name == calls[k].name
      && uses[k].input == calls[k].arguments
  }

  predicate ReplayBlock(block: Block) {
    match block
    case Text(_) => true
    case Thinking(_, signature) => signature != ""
    case Redacted(data) => data != ""
    case ToolUse(id, name, input, _) => id != "" && name != "" && input.Object?
    case _ => false
  }

  /** Whether retained blocks say exactly the neutral reply. */
  predicate ValidReplay(p: Provider, replay: Replay, reply: string, calls: seq<Call>) {
    && 0 < |replay.blocks| <= REPLAY_BLOCKS_MAX
    && p.enveloped(replay)
    && (forall k :: 0 <= k < |replay.blocks| ==> ReplayBlock(replay.blocks[k]))
    && Spoken(replay.blocks) == reply
    && SameCalls(Uses(replay.blocks), calls)
  }

  datatype Fate = Signed | Neutral | Skipped

  /** How an assistant turn is sent after `turns`. */
  function FateOf(p: Provider, system: SystemValue, tools: seq<ToolSchema>, turns: seq<Turn>, message: Message): Fate
    requires message.Assistant?
  {
    if message.replay.Some?
       && ValidReplay(p, message.replay.value, message.Reply(), message.calls)
       && message.replay.value.protocol == PROTOCOL
       && message.replay.value.prefixDigest == p.fingerprint(Prefix(system, tools, turns))
    then Signed
    else if message.IsReplayOnly() then Skipped
    else Neutral
  }

  // ---- the conversation --------------------------------------------------------------------------

  datatype Draft = Draft(turns: seq<Turn>, results: seq<Block>, skipped: nat)

  function Flush(d: Draft): Draft {
    if d.results == [] then d else Draft(d.turns + [Turn(FromUser, d.results)], [], d.skipped)
  }

  function Add(p: Provider, system: SystemValue, tools: seq<ToolSchema>, d: Draft, message: Message): Draft {
    match message
    case System(_) => d
    case Tool(_, _, _, _) => d.(results := d.results + [ResultBlock(message)])
    case User(_, _) => var f := Flush(d); f.(turns := f.turns + [UserTurn(message)])
    case Assistant(_, _, _, _) =>
      var f := Flush(d);
      match FateOf(p, system, tools, f.turns, message)
      case Signed => f.(turns := f.turns + [Turn(FromAssistant, message.replay.value.blocks)])
      case Neutral => f.(turns := f.turns + [NeutralTurn(message)])
      case Skipped => f.(skipped := f.skipped + 1)
  }

  /** The draft after `messages`, with the last run of results not yet flushed. */
  function Fold(p: Provider, system: SystemValue, tools: seq<ToolSchema>, messages: seq<Message>): Draft {
    if messages == [] then Draft([], [], 0)
    else Add(p, system, tools, Fold(p, system, tools, messages[..|messages| - 1]), messages[|messages| - 1])
  }

  /** The turns an assistant message after `messages` is judged against. */
  function Before(p: Provider, system: SystemValue, tools: seq<ToolSchema>, messages: seq<Message>): seq<Turn> {
    Flush(Fold(p, system, tools, messages)).turns
  }

  /** The turns of a whole request, encoded under its own system messages. */
  function Canonical(p: Provider, tools: seq<ToolSchema>, messages: seq<Message>): seq<Turn> {
    Before(p, CanonicalSystem(messages), tools, messages)
  }

  function SkippedIn(p: Provider, tools: seq<ToolSchema>, messages: seq<Message>): nat {
    Fold(p, CanonicalSystem(messages), tools, messages).skipped
  }

  /** How the request `messages` sends its assistant message at `at`. */
  function FateAt(p: Provider, tools: seq<ToolSchema>, messages: seq<Message>, at: nat): Fate
    requires at < |messages| && messages[at].Assistant?
  {
    var system := CanonicalSystem(messages);
    FateOf(p, system, tools, Before(p, system, tools, messages[..at]), messages[at])
  }

  method FlushResults(turns: seq<Turn>, results: seq<Block>) returns (turns': seq<Turn>, results': seq<Block>)
    ensures forall skipped :: Draft(turns', results', skipped) == Flush(Draft(turns, results, skipped))
  {
    if results == [] {
      return turns, results;
    }
    return turns + [Turn(FromUser, results)], [];
  }

  /** The encoder's one pass over the conversation. */
  method EncodeMessages(p: Provider, system: SystemValue, tools: seq<ToolSchema>, messages: seq<Message>)
    returns (turns: seq<Turn>, skipped: nat)
    requires forall k :: 0 <= k < |messages| ==> messages[k].Speaks()
    ensures turns == Before(p, system, tools, messages)
    ensures skipped == Fold(p, system, tools, messages).skipped
  {
    turns, skipped := [], 0;
    var results: seq<Block> := [];
    for i := 0 to |messages|
      invariant Draft(turns, results, skipped) == Fold(p, system, tools, messages[..i])
    {
      assert messages[..i + 1][..i] == messages[..i];
      var message := messages[i];
      match message {
        case System(_) =>
        case Tool(_, _, _, _) => results := results + [ResultBlock(message)];
        case User(_, _) =>
          turns, results := FlushResults(turns, results);
          turns := turns + [UserTurn(message)];
        case Assistant(_, _, _, _) =>
          turns, results := FlushResults(turns, results);
          match FateOf(p, system, tools, turns, message) {
            case Signed => turns := turns + [Turn(FromAssistant, message.replay.value.blocks)];
            case Neutral => turns := turns + [NeutralTurn(message)];
            case Skipped => skipped := skipped + 1;
          }
      }
    }
    assert messages[..|messages|] == messages;
    turns, results := FlushResults(turns, results);
  }

  // ---- the tail and the digest -------------------------------------------------------------------

  /** Whether a tail can be placed: the body ends on a user turn. */
  predicate Tailable(turns: seq<Turn>) {
    turns != [] && turns[|turns| - 1].role == FromUser
  }

  function Tailed(turns: seq<Turn>, tail: string): seq<Turn>
    requires Tailable(turns)
  {
    var last := |turns| - 1;
    turns[..last] + [Turn(FromUser, turns[last].content + [Text(tail)])]
  }

  /** The turns a request carries, before markers. */
  function Carried(turns: seq<Turn>, tail: Option<string>): seq<Turn>
    requires tail.Some? ==> Tailable(turns)
  {
    if tail.Some? then Tailed(turns, tail.value) else turns
  }

  datatype Retention = NoCache | Short | Long
  datatype Layout = Ordinary | Managed

  datatype Request = Request(
    messages: seq<Message>,
    tools: seq<ToolSchema>,
    tail: Option<string>,
    retention: Retention)

  /** What the source asserts of a request it encodes. */
  predicate Encodable(p: Provider, request: Request) {
    && (forall k :: 0 <= k < |request.messages| ==> request.messages[k].Speaks())
    && Canonical(p, request.tools, request.messages) != []
    && (request.tail.Some? ==> Tailable(Canonical(p, request.tools, request.messages)))
  }

  /** What a retained reply to this request is compared by; the tail counts unless `across`. */
  function ReplayDigest(p: Provider, request: Request, across: bool): string
    requires Encodable(p, request)
  {
    var turns := Canonical(p, request.tools, request.messages);
    var bound := if across then turns else Carried(turns, request.tail);
    p.fingerprint(Prefix(CanonicalSystem(request.messages), request.tools, bound))
  }

  // ---- breakpoints -------------------------------------------------------------------------------

  /** A block's place in the turns. */
  datatype Position = Position(turn: nat, block: nat) {
    predicate Precedes(other: Position) {
      turn < other.turn || (turn == other.turn && block < other.block)
    }
  }

  predicate InRange(turns: seq<Turn>, at: Position) {
    at.turn < |turns| && at.block < |turns[at.turn].content|
  }

  /** The last block of the first `upto` that may carry a marker. */
  function LastIn(content: seq<Block>, upto: nat): Option<nat>
    requires upto <= |content|
  {
    if upto == 0 then None
    else if content[upto - 1].Cacheable() then Some(upto - 1)
    else LastIn(content, upto - 1)
  }

  /** How many blocks of `turn` a search may look at when it starts there. */
  function Limit(turns: seq<Turn>, turn: nat, end: Option<nat>): nat
    requires turn < |turns|
  {
    if end.Some? then Min(end.value, |turns[turn].content|) else |turns[turn].content|
  }

  function LastCacheable(turns: seq<Turn>, turn: nat, end: Option<nat>): Option<Position>
    decreases turn
  {
    if |turns| <= turn then None
    else
      var found := LastIn(turns[turn].content, Limit(turns, turn, end));
      if found.Some? then Some(Position(turn, found.value))
      else if turn == 0 then None
      else LastCacheable(turns, turn - 1, None)
  }

  /** Whether a search that starts at `turn` and stops short of `end` there may look at `at`. */
  predicate Searched(turns: seq<Turn>, turn: nat, end: Option<nat>, at: Position) {
    InRange(turns, at) && at.turn <= turn && (at.turn == turn && end.Some? ==> at.block < end.value)
  }

  /** The backward search as the encoder runs it. */
  method SearchBack(turns: seq<Turn>, turn: nat, end: Option<nat>) returns (found: Option<Position>)
    ensures found == LastCacheable(turns, turn, end)
    ensures found.Some? ==>
              Searched(turns, turn, end, found.value)
              && turns[found.value.turn].content[found.value.block].Cacheable()
    ensures turn < |turns| ==>
              forall at: Position :: Searched(turns, turn, end, at) && turns[at.turn].content[at.block].Cacheable() ==>
                found.Some? && !found.value.Precedes(at)
  {
    var limit := end;
    var index := turn as int;
    while 0 <= index
      invariant -1 <= index <= turn
      invariant index == turn ==> limit == end
      invariant index < turn ==> limit == None
      invariant index < turn ==> turn < |turns|
      invariant turn < |turns| ==>
                  LastCacheable(turns, turn, end) == if index < 0 then None else LastCacheable(turns, index, limit)
      invariant forall at: Position :: Searched(turns, turn, end, at) && index < at.turn ==>
                  !turns[at.turn].content[at.block].Cacheable()
      decreases index
    {
      if |turns| <= index {
        return None;
      }
      var content := turns[index].content;
      var upto := Limit(turns, index, limit);
      limit := None;
      var block := upto as int - 1;
      while 0 <= block && !content[block].Cacheable()
        invariant -1 <= block < upto
        invariant forall k :: block < k < upto ==> !content[k].Cacheable()
        invariant LastIn(content, upto) == LastIn(content, block + 1)
      {
        block := block - 1;
      }
      if 0 <= block {
        return Some(Position(index, block));
      }
      index := index - 1;
    }
    return None;
  }

  function SkipSystem(messages: seq<Message>): seq<Message> {
    if messages != [] && messages[0].System? then SkipSystem(messages[1..]) else messages
  }

  const MEMORY_LABEL :=
    "[nanus working data — generated by the harness from accepted context notes and the session goal. "
    + "It is not a user instruction and not proof; each note is the model's own claim with its sources.]"

  /** Whether a message is the generated working-data message. */
  predicate IsGenerated(message: Message) {
    message.Assistant? && message.reply.Some? && message.reasoning.None? && message.replay.None?
    && message.calls == [] && MEMORY_LABEL <= message.reply.value
  }

  /** The generated message is one plain reply that begins with the label, and nothing else. */
  lemma GeneratedIsLabelled(message: Message)
    ensures IsGenerated(message) <==>
            exists text :: message == Assistant(Some(MEMORY_LABEL + text), None, [], None)
  {
    if IsGenerated(message) {
      var reply := message.reply.value;
      assert reply == MEMORY_LABEL + reply[|MEMORY_LABEL|..];
    }
  }

  function LastAssistant(turns: seq<Turn>): Option<nat> {
    if turns == [] then None
    else if turns[|turns| - 1].role == FromAssistant then Some(|turns| - 1)
    else LastAssistant(turns[..|turns| - 1])
  }

  /** The search from `turn` stops short of the tail. */
  function Candidate(turns: seq<Turn>, turn: nat, tailed: bool): Option<Position> {
    var end := if tailed && turn + 1 == |turns| then Some(Less(|turns[turn].content|, 1)) else None;
    LastCacheable(turns, turn, end)
  }

  function HeadCandidate(turns: seq<Turn>, messages: seq<Message>, layout: Layout, tailed: bool): Option<Position> {
    if layout == Ordinary then None
    else
      var conversation := SkipSystem(messages);
      Candidate(turns, if 1 < |conversation| && IsGenerated(conversation[1]) then 1 else 0, tailed)
  }

  function AnswerCandidate(turns: seq<Turn>, tailed: bool): Option<Position> {
    var answer := LastAssistant(turns);
    if answer.None? || answer.value == 0 then None else Candidate(turns, answer.value - 1, tailed)
  }

  function EndCandidate(turns: seq<Turn>, tailed: bool): Option<Position> {
    if turns == [] then None else Candidate(turns, |turns| - 1, tailed)
  }

  /** The message breakpoints 2, 3 and 4, over turns that already carry the tail. */
  function Breakpoints(turns: seq<Turn>, messages: seq<Message>, layout: Layout, tailed: bool): seq<Option<Position>> {
    [HeadCandidate(turns, messages, layout, tailed), AnswerCandidate(turns, tailed), EndCandidate(turns, tailed)]
  }

  // ---- decoration --------------------------------------------------------------------------------

  datatype Ttl = FiveMinutes | OneHour
  datatype SentBlock = SentBlock(block: Block, cache: Option<Ttl>)
  datatype SentTurn = SentTurn(role: Role, content: seq<SentBlock>)
  datatype SystemBlock = SystemBlock(text: string, cache: Option<Ttl>)

  function TtlOf(retention: Retention): Option<Ttl> {
    match retention
    case NoCache => None
    case Short => Some(FiveMinutes)
    case Long => Some(OneHour)
  }

  /** A turn as it is sent, marked at the blocks `marks` names. */
  function Mark(turn: Turn, index: nat, marks: set<Position>, ttl: Ttl): SentTurn {
    SentTurn(turn.role, seq(|turn.content|, k requires 0 <= k < |turn.content| =>
      SentBlock(turn.content[k], if Position(index, k) in marks then Some(ttl) else None)))
  }

  function MarkAll(turns: seq<Turn>, marks: set<Position>, ttl: Ttl): seq<SentTurn> {
    seq(|turns|, k requires 0 <= k < |turns| => Mark(turns[k], k, marks, ttl))
  }

  /** A sent turn without its markers. */
  function Bare(turn: SentTurn): Turn {
    Turn(turn.role, seq(|turn.content|, k requires 0 <= k < |turn.content| => turn.content[k].block))
  }

  function BareAll(turns: seq<SentTurn>): seq<Turn> {
    seq(|turns|, k requires 0 <= k < |turns| => Bare(turns[k]))
  }

  predicate Increasing(marks: seq<Position>) {
    forall i, j :: 0 <= i < j < |marks| ==> marks[i].Precedes(marks[j])
  }

  /** The set of positions in a list. */
  function AsSet(marks: seq<Position>): set<Position> {
    set m | m in marks
  }

  /** Candidate `k` is marked, or lies at or before an earlier candidate that is. */
  predicate Served(candidates: seq<Option<Position>>, k: nat, placed: seq<Position>)
    requires k < |candidates| && candidates[k].Some?
  {
    candidates[k].value in placed ||
    exists j :: 0 <= j < k && candidates[j].Some? && candidates[j].value in placed
                && !candidates[j].value.Precedes(candidates[k].value)
  }

  lemma MarkOneMore(turns: seq<Turn>, placed: seq<Position>, at: Position, ttl: Ttl)
    requires InRange(turns, at)
    ensures var sent := MarkAll(turns, AsSet(placed), ttl);
            var turn := sent[at.turn];
            MarkAll(turns, AsSet(placed + [at]), ttl) ==
              sent[at.turn := turn.(content := turn.content[at.block := turn.content[at.block].(cache := Some(ttl))])]
  {
    var sent := MarkAll(turns, AsSet(placed), ttl);
    var more := MarkAll(turns, AsSet(placed + [at]), ttl);
    var turn := sent[at.turn];
    assert AsSet(placed + [at]) == AsSet(placed) + {at};
    forall k | 0 <= k < |turns|
      ensures more[k] == if k == at.turn
        then turn.(content := turn.content[at.block := turn.content[at.block].(cache := Some(ttl))]) else sent[k]
    {
      assert k != at.turn ==> more[k].content == sent[k].content;
    }
  }

  /**
    Places a marker at each candidate that lies after the last one placed. A candidate goes unmarked
    only when it lies at or before an earlier candidate that is marked; nothing else is marked.
   */
  method PlaceMarkers(turns: seq<Turn>, candidates: seq<Option<Position>>, ttl: Ttl)
    returns (sent: seq<SentTurn>, placed: seq<Position>)
    requires forall k :: 0 <= k < |candidates| && candidates[k].Some? ==> InRange(turns, candidates[k].value)
    ensures sent == MarkAll(turns, AsSet(placed), ttl)
    ensures Increasing(placed) && |placed| <= |candidates|
    ensures forall m :: m in placed ==> Some(m) in candidates
    ensures forall k :: 0 <= k < |candidates| && candidates[k].Some? ==> Served(candidates, k, placed)
  {
    sent, placed := MarkAll(turns, {}, ttl), [];
    assert AsSet([]) == {};
    for i := 0 to |candidates|
      invariant sent == MarkAll(turns, AsSet(placed), ttl)
      invariant Increasing(placed) && |placed| <= i
      invariant forall m :: m in placed ==> Some(m) in candidates
      invariant forall k :: 0 <= k < i && candidates[k].Some? ==> Served(candidates, k, placed)
      invariant placed != [] ==> exists j :: 0 <= j < i && candidates[j] == Some(placed[|placed| - 1])
    {
      if candidates[i].Some? {
        var at := candidates[i].value;
        if placed == [] || placed[|placed| - 1].Precedes(at) {
          MarkOneMore(turns, placed, at, ttl);
          var turn := sent[at.turn];
          var block := turn.content[at.block].(cache := Some(ttl));
          sent := sent[at.turn := turn.(content := turn.content[at.block := block])];
          placed := placed + [at];
        }
      }
    }
  }

  datatype Body = Body(system: seq<SystemBlock>, tools: seq<ToolSchema>, turns: seq<SentTurn>)
  datatype Encoded = Encoded(body: Body, skipped: nat, prefixDigest: string)

  function SystemBlocks(parts: seq<string>, first: Option<Ttl>): seq<SystemBlock> {
    seq(|parts|, k requires 0 <= k < |parts| => SystemBlock(parts[k], if k == 0 then first else None))
  }

  /** A sent body's turns with its markers, and the tail when there is one, taken away. */
  function Erase(turns: seq<SentTurn>, tailed: bool): seq<Turn>
    requires tailed ==> turns != [] && turns[|turns| - 1].content != []
  {
    var bare := BareAll(turns);
    if tailed then
      var last := |bare| - 1;
      bare[..last] + [bare[last].(content := bare[last].content[..|bare[last].content| - 1])]
    else bare
  }

  /** The tail's own place, when there is a tail. */
  predicate IsTail(turns: seq<Turn>, tailed: bool, at: Position) {
    tailed && turns != [] && at.turn == |turns| - 1 && at.block + 1 == |turns[at.turn].content|
  }

  lemma {:induction false} LastInIsInside(content: seq<Block>, upto: nat)
    requires upto <= |content|
    ensures LastIn(content, upto).Some? ==>
              LastIn(content, upto).value < upto && content[LastIn(content, upto).value].Cacheable()
  {
    if upto != 0 {
      LastInIsInside(content, upto - 1);
    }
  }

  lemma {:induction false} LastCacheableIsInside(turns: seq<Turn>, turn: nat, end: Option<nat>)
    ensures var found := LastCacheable(turns, turn, end);
            found.Some? ==> Searched(turns, turn, end, found.value)
                            && turns[found.value.turn].content[found.value.block].Cacheable()
    decreases turn
  {
    if turn < |turns| {
      LastInIsInside(turns[turn].content, Limit(turns, turn, end));
      if 0 < turn {
        LastCacheableIsInside(turns, turn - 1, None);
      }
    }
  }

  /** A block that may carry a marker: cacheable, and not the tail. */
  predicate Markable(turns: seq<Turn>, tailed: bool, at: Position) {
    InRange(turns, at) && turns[at.turn].content[at.block].Cacheable() && !IsTail(turns, tailed, at)
  }

  /** `found` is the last markable block of the turns up to `upto`, and none exactly when there is none. */
  ghost predicate LastMarkable(turns: seq<Turn>, upto: nat, tailed: bool, found: Option<Position>) {
    && (found.Some? ==> Markable(turns, tailed, found.value) && found.value.turn <= upto)
    && (forall at: Position :: Markable(turns, tailed, at) && at.turn <= upto ==>
          found.Some? && !found.value.Precedes(at))
  }

  lemma {:induction false} LastInIsLast(content: seq<Block>, upto: nat)
    requires upto <= |content|
    ensures forall k :: 0 <= k < upto && content[k].Cacheable() ==>
              LastIn(content, upto).Some? && k <= LastIn(content, upto).value
  {
    if upto != 0 {
      LastInIsLast(content, upto - 1);
    }
  }

  lemma {:induction false} LastCacheableIsLast(turns: seq<Turn>, turn: nat, end: Option<nat>)
    requires turn < |turns|
    ensures forall at: Position :: Searched(turns, turn, end, at) && turns[at.turn].content[at.block].Cacheable() ==>
              LastCacheable(turns, turn, end).Some? && !LastCacheable(turns, turn, end).value.Precedes(at)
    decreases turn
  {
    LastInIsLast(turns[turn].content, Limit(turns, turn, end));
    if 0 < turn {
      LastCacheableIsLast(turns, turn - 1, None);
    }
  }

  lemma CandidateIsLast(turns: seq<Turn>, turn: nat, tailed: bool)
    requires turn < |turns|
    ensures LastMarkable(turns, turn, tailed, Candidate(turns, turn, tailed))
  {
    var end := if tailed && turn + 1 == |turns| then Some(Less(|turns[turn].content|, 1)) else None;
    LastCacheableIsInside(turns, turn, end);
    LastCacheableIsLast(turns, turn, end);
    assert forall at: Position :: Markable(turns, tailed, at) && at.turn <= turn ==> Searched(turns, turn, end, at);
  }

  /** `answer` is the last assistant turn. */
  predicate IsLastAnswer(turns: seq<Turn>, answer: nat) {
    && answer < |turns| && turns[answer].role == FromAssistant
    && forall k :: answer < k < |turns| ==> turns[k].role == FromUser
  }

  lemma {:induction false} LastAssistantIsLast(turns: seq<Turn>)
    ensures match LastAssistant(turns)
            case Some(answer) => IsLastAnswer(turns, answer)
            case None => forall k :: 0 <= k < |turns| ==> turns[k].role == FromUser
  {
    if turns != [] && turns[|turns| - 1].role != FromAssistant {
      LastAssistantIsLast(turns[..|turns| - 1]);
    }
  }

  /** The turn the managed head search starts at: the working data, when it is there, else the first. */
  function HeadTurn(messages: seq<Message>): nat {
    var conversation := SkipSystem(messages);
    if 1 < |conversation| && IsGenerated(conversation[1]) then 1 else 0
  }

  /**
    Where the breakpoints are: the end one is the last markable block of all; the answer one the last
    before the last assistant turn, and none when no turn is before one; the head one, in the managed
    layout only, the last up to the head turn. Each is none exactly when there is no such block.
   */
  lemma BreakpointsAreLast(turns: seq<Turn>, messages: seq<Message>, layout: Layout, tailed: bool)
    ensures var b := Breakpoints(turns, messages, layout, tailed);
            && (if turns == [] then b[2] == None else LastMarkable(turns, |turns| - 1, tailed, b[2]))
            && (forall answer: nat | IsLastAnswer(turns, answer) ::
                  if answer == 0 then b[1] == None else LastMarkable(turns, answer - 1, tailed, b[1]))
            && ((forall k :: 0 <= k < |turns| ==> turns[k].role == FromUser) ==> b[1] == None)
            && (if layout == Ordinary then b[0] == None
                else HeadTurn(messages) < |turns| ==> LastMarkable(turns, HeadTurn(messages), tailed, b[0]))
  {
    LastAssistantIsLast(turns);
    forall turn: nat | turn < |turns| ensures LastMarkable(turns, turn, tailed, Candidate(turns, turn, tailed)) {
      CandidateIsLast(turns, turn, tailed);
    }
  }

  /** Every breakpoint lies on a block that may carry a marker, and never on the tail. */
  lemma BreakpointsAreSafe(turns: seq<Turn>, messages: seq<Message>, layout: Layout, tailed: bool)
    ensures forall k :: 0 <= k < 3 && Breakpoints(turns, messages, layout, tailed)[k].Some? ==>
              var at := Breakpoints(turns, messages, layout, tailed)[k].value;
              InRange(turns, at) && turns[at.turn].content[at.block].Cacheable() && !IsTail(turns, tailed, at)
  {
    forall turn: nat
      ensures Candidate(turns, turn, tailed).Some? ==>
                var at := Candidate(turns, turn, tailed).value;
                InRange(turns, at) && turns[at.turn].content[at.block].Cacheable() && !IsTail(turns, tailed, at)
    {
      var end := if tailed && turn + 1 == |turns| then Some(Less(|turns[turn].content|, 1)) else None;
      LastCacheableIsInside(turns, turn, end);
    }
  }

  /** One block more on the last turn, and dropping it gives the turns back. */
  method AppendTail(turns: seq<Turn>, tail: string) returns (tailed: seq<Turn>)
    requires Tailable(turns)
    ensures tailed == Tailed(turns, tail) && |tailed| == |turns|
    ensures var last := |turns| - 1;
            && tailed[last].content != []
            && tailed[last].content[|tailed[last].content| - 1] == Text(tail) && tailed[last].role == FromUser
            && tailed[..last] + [tailed[last].(content := tailed[last].content[..|tailed[last].content| - 1])] == turns
  {
    var last := turns[|turns| - 1];
    tailed := turns[..|turns| - 1] + [last.(content := last.content + [Text(tail)])];
    assert tailed[|turns| - 1].content[..|last.content|] == last.content;
  }

  /** What a decorated list of turns may carry, when `placed` are its markers. */
  predicate Decorated(turns: seq<Turn>, tailed: bool, ttl: Option<Ttl>, placed: seq<Position>, sent: seq<SentTurn>) {
    && BareAll(sent) == turns
    && |placed| <= 3 && Increasing(placed) && (ttl.None? ==> placed == [])
    && (forall m :: m in placed ==>
          InRange(turns, m) && turns[m.turn].content[m.block].Cacheable() && !IsTail(turns, tailed, m))
    && (forall t, b :: 0 <= t < |turns| && 0 <= b < |turns[t].content| ==>
          |sent[t].content| == |turns[t].content|
          && sent[t].content[b].cache == if Position(t, b) in placed then ttl else None)
  }

  lemma MarkedIsBare(turns: seq<Turn>, marks: set<Position>, ttl: Ttl)
    ensures BareAll(MarkAll(turns, marks, ttl)) == turns
  {
    var sent := MarkAll(turns, marks, ttl);
    assert forall k :: 0 <= k < |turns| ==> Bare(sent[k]).content == turns[k].content;
  }

  /** Where the last marker is, when there is one. */
  function LastOf(placed: seq<Position>): Option<Position> {
    if placed == [] then None else Some(placed[|placed| - 1])
  }

  /** Markers that serve every breakpoint end on the last markable block there is. */
  lemma TheEndIsMarked(
      turns: seq<Turn>, messages: seq<Message>, layout: Layout, tailed: bool, placed: seq<Position>)
    requires turns != [] && Increasing(placed)
    requires forall m :: m in placed ==> Markable(turns, tailed, m)
    requires var candidates := Breakpoints(turns, messages, layout, tailed);
             candidates[2].Some? ==> Served(candidates, 2, placed)
    ensures LastMarkable(turns, |turns| - 1, tailed, LastOf(placed))
  {
    BreakpointsAreLast(turns, messages, layout, tailed);
    var candidates := Breakpoints(turns, messages, layout, tailed);
    if placed != [] {
      var last := placed[|placed| - 1];
      assert last in placed && candidates[2].Some?;
      var end := candidates[2].value;
      assert end in placed;
      var k :| 0 <= k < |placed| && placed[k] == end;
      assert k < |placed| - 1 ==> end.Precedes(last);
    }
  }

  /**
    Places the request's markers: none when caching is off, and otherwise one at each breakpoint that
    is not at or before an earlier one, of which the last is the last markable block there is.
   */
  method Decorate(turns: seq<Turn>, request: Request, layout: Layout)
    returns (system: seq<SystemBlock>, sent: seq<SentTurn>, ghost placed: seq<Position>)
    ensures |system| == |SystemParts(request.messages)|
    ensures forall k :: 0 <= k < |system| ==>
              system[k] == SystemBlock(SystemParts(request.messages)[k],
                                       if k == 0 then TtlOf(request.retention) else None)
    ensures Decorated(turns, request.tail.Some?, TtlOf(request.retention), placed, sent)
    ensures var candidates := Breakpoints(turns, request.messages, layout, request.tail.Some?);
            forall k :: 0 <= k < 3 && candidates[k].Some? && !request.retention.NoCache? ==>
              Served(candidates, k, placed)
    ensures forall m :: m in placed ==> Some(m) in Breakpoints(turns, request.messages, layout, request.tail.Some?)
    ensures !request.retention.NoCache? && turns != [] ==>
              LastMarkable(turns, |turns| - 1, request.tail.Some?, LastOf(placed))
  {
    var ttl := TtlOf(request.retention);
    system := SystemBlocks(SystemParts(request.messages), ttl);
    if ttl.None? {
      sent, placed := MarkAll(turns, {}, FiveMinutes), [];
      MarkedIsBare(turns, {}, FiveMinutes);
      return;
    }
    var tailed := request.tail.Some?;
    BreakpointsAreSafe(turns, request.messages, layout, tailed);
    sent, placed := PlaceMarkers(turns, Breakpoints(turns, request.messages, layout, tailed), ttl.value);
    MarkedIsBare(turns, AsSet(placed), ttl.value);
    if turns != [] {
      TheEndIsMarked(turns, request.messages, layout, tailed, placed);
    }
  }

  /** Every marker of a body is of this one lifetime. */
  predicate OnlyCaches(body: Body, ttl: Option<Ttl>) {
    && (forall k :: 0 <= k < |body.system| ==> body.system[k].cache in {None, ttl})
    && (forall t, b :: 0 <= t < |body.turns| && 0 <= b < |body.turns[t].content| ==>
          body.turns[t].content[b].cache in {None, ttl})
  }

  /** Taking the markers and the tail away gives the turns back. */
  lemma EraseGivesBack(
      turns: seq<Turn>, tail: Option<string>, ttl: Option<Ttl>, placed: seq<Position>, sent: seq<SentTurn>)
    requires tail.Some? ==> Tailable(turns)
    requires Decorated(Carried(turns, tail), tail.Some?, ttl, placed, sent)
    ensures tail.Some? ==> sent != [] && sent[|sent| - 1].content != []
    ensures Erase(sent, tail.Some?) == turns
  {
    if tail.Some? {
      var last := |turns| - 1;
      assert Bare(sent[last]) == Carried(turns, tail)[last];
      assert Carried(turns, tail)[last].content[..|turns[last].content|] == turns[last].content;
    }
  }

  /** No markers when there is no caching; else five minutes or one hour, and the first system block marked. */
  predicate AsAsked(retention: Retention, placed: seq<Position>, body: Body) {
    && (match retention
        case NoCache => placed == [] && OnlyCaches(body, None)
        case Short => OnlyCaches(body, Some(FiveMinutes))
        case Long => OnlyCaches(body, Some(OneHour)))
    && (retention != NoCache && body.system != [] ==> body.system[0].cache.Some?)
  }

  /** The markers of a decorated body are of the lifetime the request asks for, and none are placed without one. */
  lemma MarkersAreAsAsked(turns: seq<Turn>, tailed: bool, request: Request, placed: seq<Position>, body: Body)
    requires Decorated(turns, tailed, TtlOf(request.retention), placed, body.turns)
    requires body.system == SystemBlocks(SystemParts(request.messages), TtlOf(request.retention))
    ensures AsAsked(request.retention, placed, body)
  {
    DecoratedCaches(turns, tailed, TtlOf(request.retention), placed, body);
  }

  lemma DecoratedCaches(turns: seq<Turn>, tailed: bool, ttl: Option<Ttl>, placed: seq<Position>, body: Body)
    requires Decorated(turns, tailed, ttl, placed, body.turns)
    requires forall k :: 0 <= k < |body.system| ==> body.system[k].cache == if k == 0 then ttl else None
    ensures OnlyCaches(body, ttl)
  {
    forall t, b | 0 <= t < |body.turns| && 0 <= b < |body.turns[t].content|
      ensures body.turns[t].content[b].cache in {None, ttl}
    {
      assert BareAll(body.turns)[t] == turns[t];
    }
  }

  /** The turns with their tail, how many replies were skipped, and the digest, taken before or after the tail. */
  method EncodeTailed(p: Provider, request: Request, across: bool)
    returns (turns: seq<Turn>, skipped: nat, digest: string)
    requires Encodable(p, request)
    ensures turns == Carried(Canonical(p, request.tools, request.messages), request.tail) && turns != []
    ensures skipped == SkippedIn(p, request.tools, request.messages) && digest == ReplayDigest(p, request, across)
  {
    var system := CanonicalSystem(request.messages);
    turns, skipped := EncodeMessages(p, system, request.tools, request.messages);
    var untailed := p.fingerprint(Prefix(system, request.tools, turns));
    if request.tail.Some? {
      turns := AppendTail(turns, request.tail.value);
    }
    digest :=
      if request.tail.None? || across then untailed else p.fingerprint(Prefix(system, request.tools, turns));
  }

  /**
    Encodes a request. Take the markers and the tail away and what is left is exactly the canonical
    turns; the markers in the turns are at most three, strictly increasing, all of the request's one
    TTL, never on a thinking block and never on the tail; a fourth sits on the first system block.
   */
  method Encode(p: Provider, request: Request, layout: Layout, across: bool)
    returns (encoded: Encoded, ghost placed: seq<Position>)
    requires Encodable(p, request)
    ensures encoded.skipped == SkippedIn(p, request.tools, request.messages)
    ensures encoded.prefixDigest == ReplayDigest(p, request, across)
    ensures encoded.body.tools == request.tools
    ensures encoded.body.system == SystemBlocks(SystemParts(request.messages), TtlOf(request.retention))
    ensures var turns := Carried(Canonical(p, request.tools, request.messages), request.tail);
            Decorated(turns, request.tail.Some?, TtlOf(request.retention), placed, encoded.body.turns)
    ensures request.tail.Some? ==>
              encoded.body.turns != [] && encoded.body.turns[|encoded.body.turns| - 1].content != []
    ensures Erase(encoded.body.turns, request.tail.Some?) == Canonical(p, request.tools, request.messages)
    ensures AsAsked(request.retention, placed, encoded.body)
    ensures !request.retention.NoCache? ==>
              var turns := Carried(Canonical(p, request.tools, request.messages), request.tail);
              turns != [] && LastMarkable(turns, |turns| - 1, request.tail.Some?, LastOf(placed))
  {
    var turns, skipped, digest := EncodeTailed(p, request, across);
    var blocks: seq<SystemBlock>;
    var sent: seq<SentTurn>;
    blocks, sent, placed := Decorate(turns, request, layout);
    assert blocks == SystemBlocks(SystemParts(request.messages), TtlOf(request.retention));
    encoded := Encoded(Body(blocks, request.tools, sent), skipped, digest);
    MarkersAreAsAsked(turns, request.tail.Some?, request, placed, encoded.body);
    EraseGivesBack(Canonical(p, request.tools, request.messages), request.tail, TtlOf(request.retention), placed, sent);
  }
}
