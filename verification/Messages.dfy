/** The conversation the adapters encode, and the Messages blocks and turns it becomes. */
module Messages {
  import opened Wrappers

  /** A JSON value, known only by its text and by whether it is an object. */
  datatype Json = Object(text: string) | Other(text: string)

  datatype Call = Call(id: string, name: string, arguments: Json)
  datatype Part = TextPart(text: string) | ImagePart(mediaType: string, data: string)
  datatype Replay = Replay(protocol: string, prefixDigest: string, blocks: seq<Block>)

  datatype Message =
    | System(text: string)
    | User(text: string, parts: Option<seq<Part>>)
    | Assistant(reply: Option<string>, reasoning: Option<string>, calls: seq<Call>, replay: Option<Replay>)
    | Tool(callId: string, content: string, parts: Option<seq<Part>>, isError: bool)
  {
    function Calls(): seq<Call> {
      if Assistant? then calls else []
    }

    function Reply(): string {
      if Assistant? && reply.Some? then reply.value else ""
    }

    /** Whether only the protocol that produced this turn could say it. */
    predicate IsReplayOnly() {
      Assistant? && replay.Some? && Reply() == "" && calls == []
    }

    /** What the encoder asserts of an assistant turn: it carries text, calls or replay. */
    predicate Speaks() {
      Assistant? ==> Reply() != "" || calls != [] || replay.Some?
    }
  }

  predicate HasImage(parts: seq<Part>) {
    exists k :: 0 <= k < |parts| && parts[k].ImagePart?
  }

  datatype ResultContent = Plain(text: string) | Parts(parts: seq<Part>)

  datatype Block =
    | Text(text: string)
    | Image(mediaType: string, data: string)
    | Thinking(thinking: string, signature: string)
    | Redacted(data: string)
    | ToolUse(id: string, name: string, input: Json, caller: Option<string>)
    | ToolResult(id: string, content: ResultContent, isError: bool)
  {
    /** Whether a cache marker may sit on this block. */
    predicate Cacheable() {
      !Thinking? && !Redacted?
    }
  }

  datatype Role = FromUser | FromAssistant
  datatype Turn = Turn(role: Role, content: seq<Block>)

  // ---- lists of blocks and messages ---------------------------------------------------------------

  /** The text blocks of a reply, joined. */
  function Spoken(blocks: seq<Block>): string {
    if blocks == [] then "" else (if blocks[0].Text? then blocks[0].text else "") + Spoken(blocks[1..])
  }

  function Uses(blocks: seq<Block>): seq<Block> {
    if blocks == [] then [] else (if blocks[0].ToolUse? then [blocks[0]] else []) + Uses(blocks[1..])
  }

  function CallIds(calls: seq<Call>): seq<string> {
    if calls == [] then [] else [calls[0].id] + CallIds(calls[1..])
  }

  /** The ids of the tool uses among `blocks`. */
  function UseIds(blocks: seq<Block>): seq<string> {
    if blocks == [] then [] else (if blocks[0].ToolUse? then [blocks[0].id] else []) + UseIds(blocks[1..])
  }

  /** The tool results among `blocks`. */
  function Results(blocks: seq<Block>): seq<Block> {
    if blocks == [] then [] else (if blocks[0].ToolResult? then [blocks[0]] else []) + Results(blocks[1..])
  }

  function ResultIds(blocks: seq<Block>): seq<string> {
    if blocks == [] then [] else (if blocks[0].ToolResult? then [blocks[0].id] else []) + ResultIds(blocks[1..])
  }
}
