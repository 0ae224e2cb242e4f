/** What a conversation says, read from its messages and read back from the turns that are sent. */
module Meaning {
  import opened Wrappers
  import opened Messages

  /** One thing said: by the human, by the model, or by a tool. */
  datatype Utterance =
    | Human(parts: seq<Part>)
    | Answer(text: string, calls: seq<Call>)
    | Outcome(id: string, content: ResultContent, isError: bool)

  // ---- from the messages -----------------------------------------------------------------------------

  /** A text that ends its line, with its own line end or one more. */
  function Line(text: string): string {
    if text != "" && text[|text| - 1] == '\n' then text else text + "\n"
  }

  /** The texts among the parts, each as a line, one after the other. */
  function Lined(parts: seq<Part>): string {
    if parts == [] then ""
    else
      var last := parts[|parts| - 1];
      Lined(parts[..|parts| - 1]) + if last.TextPart? then Line(last.text) else ""
  }

  /** What a result is to carry: its text, or its parts when there is an image, or its texts as lines. */
  predicate Carries(message: Message, content: ResultContent)
    requires message.Tool?
  {
    match message.parts
    case None => content == Plain(message.content)
    case Some(parts) =>
      if exists k :: 0 <= k < |parts| && parts[k].ImagePart? then content == Parts(parts)
      else content == Plain(Lined(parts))
  }

  /** The calls as they can be sent: arguments that are not an object become the empty one. */
  function Sendable(calls: seq<Call>): seq<Call> {
    seq(|calls|, k requires 0 <= k < |calls| =>
      if calls[k].arguments.Object? then calls[k] else calls[k].(arguments := Object("{}")))
  }

  /** Whether `said` is what the message says. */
  predicate Means(message: Message, said: Utterance) {
    match message
    case System(_) => false
    case User(text, parts) => said == Human(if parts.None? then [TextPart(text)] else parts.value)
    case Assistant(_, _, calls, _) => said == Answer(message.Reply(), Sendable(calls))
    case Tool(id, _, _, isError) =>
      said.Outcome? && said.id == id && said.isError == isError && Carries(message, said.content)
  }

  /** Whether each message in order is what was said. */
  predicate Say(messages: seq<Message>, said: seq<Utterance>) {
    |messages| == |said| && forall k :: 0 <= k < |messages| ==> Means(messages[k], said[k])
  }

  /** The messages that are not system messages. */
  function Uttered(messages: seq<Message>): seq<Message> {
    if messages == [] then []
    else
      var last := messages[|messages| - 1];
      Uttered(messages[..|messages| - 1]) + if last.System? then [] else [last]
  }

  // ---- from the turns --------------------------------------------------------------------------------

  function PartOf(block: Block): seq<Part> {
    match block
    case Text(text) => [TextPart(text)]
    case Image(mediaType, data) => [ImagePart(mediaType, data)]
    case _ => []
  }

  function TextOf(block: Block): string {
    if block.Text? then block.text else ""
  }

  function CallOf(block: Block): seq<Call> {
    if block.ToolUse? then [Call(block.id, block.name, block.input)] else []
  }

  function OutcomeOf(block: Block): seq<Utterance> {
    if block.ToolResult? then [Outcome(block.id, block.content, block.isError)] else []
  }

  /** What `of` reads in each block, joined. */
  function ReadAll<T>(of: Block -> seq<T>, content: seq<Block>): seq<T> {
    if content == [] then [] else ReadAll(of, content[..|content| - 1]) + of(content[|content| - 1])
  }

  /** What a reader makes of one turn: an answer, or a run of results, or what the human said. */
  function ReadTurn(turn: Turn): seq<Utterance> {
    if turn.role == FromAssistant then [Answer(ReadAll(TextOf, turn.content), ReadAll(CallOf, turn.content))]
    else if turn.content != [] && turn.content[0].ToolResult? then ReadAll(OutcomeOf, turn.content)
    else [Human(ReadAll(PartOf, turn.content))]
  }

  function ReadTurns(turns: seq<Turn>): seq<Utterance> {
    if turns == [] then [] else ReadTurns(turns[..|turns| - 1]) + ReadTurn(turns[|turns| - 1])
  }
}
