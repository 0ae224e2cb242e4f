/** The turns that are sent say exactly what the conversation says. */
module WireMeaning {
  import opened Wrappers
  import opened Messages
  import opened Encoder
  import opened EncoderProofs
  import opened Meaning

  // ---- reading lists of blocks -----------------------------------------------------------------------

  lemma {:induction false} ReadsJoin<T>(of: Block -> seq<T>, a: seq<Block>, b: seq<Block>)
    ensures ReadAll(of, a + b) == ReadAll(of, a) + ReadAll(of, b)
  {
    if b == [] {
      NothingMore(a);
      NothingMore(ReadAll(of, a));
    } else {
      var init, last := b[..|b| - 1], b[|b| - 1];
      assert (a + b)[..|a + b| - 1] == a + init;
      ReadsJoin(of, a, init);
      Regrouped(ReadAll(of, a), ReadAll(of, init), of(last));
    }
  }

  lemma ReadsOne<T>(of: Block -> seq<T>, block: Block)
    ensures ReadAll(of, [block]) == of(block)
  {
    assert [block][..0] == [];
    NothingMore(of(block));
  }

  lemma FirstAndRest<T>(of: Block -> seq<T>, first: Block, rest: seq<Block>)
    ensures ReadAll(of, [first] + rest) == of(first) + ReadAll(of, rest)
  {
    ReadsJoin(of, [first], rest);
    ReadsOne(of, first);
  }

  // ---- each kind of message --------------------------------------------------------------------------

  lemma {:induction false} PartsAreRead(parts: seq<Part>)
    ensures ReadAll(PartOf, EncodeParts(parts)) == parts
    ensures forall k :: 0 <= k < |EncodeParts(parts)| ==> EncodeParts(parts)[k].Text? || EncodeParts(parts)[k].Image?
  {
    if parts != [] {
      PartsAreRead(parts[1..]);
      FirstAndRest(PartOf, EncodeParts(parts)[0], EncodeParts(parts[1..]));
      assert EncodeParts(parts) == [EncodeParts(parts)[0]] + EncodeParts(parts[1..]);
    }
  }

  lemma UserIsRead(message: Message)
    requires message.User?
    ensures |ReadTurn(UserTurn(message))| == 1 && Means(message, ReadTurn(UserTurn(message))[0])
  {
    if message.parts.Some? {
      PartsAreRead(message.parts.value);
    } else {
      ReadsOne(PartOf, Text(message.text));
    }
  }

  lemma {:induction false} LinedJoins(a: seq<Part>, b: seq<Part>)
    ensures Lined(a + b) == Lined(a) + Lined(b)
  {
    if b == [] {
      NothingMore(a);
      NothingMore(Lined(a));
    } else {
      assert (a + b)[..|a + b| - 1] == a + b[..|b| - 1];
      LinedJoins(a, b[..|b| - 1]);
      Regrouped(Lined(a), Lined(b[..|b| - 1]), Lined(b)[|Lined(b[..|b| - 1])|..]);
    }
  }

  lemma {:induction false} JoinedTextIsLined(parts: seq<Part>)
    ensures JoinedText(parts) == Lined(parts)
  {
    if parts != [] {
      JoinedTextIsLined(parts[1..]);
      assert parts == [parts[0]] + parts[1..] && [parts[0]][..0] == [];
      LinedJoins([parts[0]], parts[1..]);
    }
  }

  /** A result on the wire is the tool message's: its id, its error flag, and what it is to carry. */
  lemma ResultIsRead(message: Message)
    requires message.Tool?
    ensures var block := ResultBlock(message);
            && block.ToolResult? && block.id == message.callId && block.isError == message.isError
            && Carries(message, block.content)
  {
    if message.parts.Some? {
      JoinedTextIsLined(message.parts.value);
    }
  }

  lemma {:induction false} CallsAreRead(calls: seq<Call>)
    ensures ReadAll(TextOf, EncodeCalls(calls)) == "" && ReadAll(CallOf, EncodeCalls(calls)) == Sendable(calls)
    ensures forall k :: 0 <= k < |EncodeCalls(calls)| ==> EncodeCalls(calls)[k].ToolUse?
  {
    if calls != [] {
      var uses, first := EncodeCalls(calls), EncodeCalls(calls)[0];
      CallsAreRead(calls[1..]);
      FirstAndRest(TextOf, first, EncodeCalls(calls[1..]));
      FirstAndRest(CallOf, first, EncodeCalls(calls[1..]));
      assert uses == [first] + EncodeCalls(calls[1..]);
      assert Sendable(calls) == [Sendable(calls)[0]] + Sendable(calls[1..]);
    }
  }

  /** A neutral turn is the text first, when there is any, and then the calls. */
  lemma NeutralIsTextThenCalls(message: Message)
    requires message.Assistant?
    ensures var content := NeutralTurn(message).content;
            && (message.Reply() != "" ==> content != [] && content[0] == Text(message.Reply()))
            && forall k :: (if message.Reply() == "" then 0 else 1) <= k < |content| ==> content[k].ToolUse?
  {
    CallsAreRead(message.calls);
  }

  lemma NeutralIsRead(message: Message)
    requires message.Assistant?
    ensures ReadTurn(NeutralTurn(message)) == [Answer(message.Reply(), Sendable(message.calls))]
  {
    CallsAreRead(message.calls);
    if message.Reply() == "" {
      NothingMore(EncodeCalls(message.calls));
    } else {
      FirstAndRest(TextOf, Text(message.Reply()), EncodeCalls(message.calls));
      FirstAndRest(CallOf, Text(message.Reply()), EncodeCalls(message.calls));
      NothingMore(message.Reply());
      NothingMore(Sendable(message.calls));
    }
  }

  lemma {:induction false} SpokenIsText(blocks: seq<Block>)
    ensures Spoken(blocks) == ReadAll(TextOf, blocks)
  {
    if blocks != [] {
      SpokenIsText(blocks[1..]);
      assert blocks == [blocks[0]] + blocks[1..];
      FirstAndRest(TextOf, blocks[0], blocks[1..]);
    }
  }

  lemma {:induction false} ReplayedCalls(blocks: seq<Block>, calls: seq<Call>)
    requires forall k :: 0 <= k < |blocks| ==> ReplayBlock(blocks[k])
    requires SameCalls(Uses(blocks), calls)
    ensures ReadAll(CallOf, blocks) == calls && Sendable(calls) == calls
    decreases |blocks|
  {
    if blocks == [] {
      assert calls == [];
    } else {
      var first, rest, uses := blocks[0], blocks[1..], Uses(blocks[1..]);
      assert blocks == [first] + rest;
      FirstAndRest(CallOf, first, rest);
      if first.ToolUse? {
        assert Uses(blocks) == [first] + uses;
        assert forall k :: 0 <= k < |uses| ==> uses[k] == Uses(blocks)[k + 1];
        ReplayedCalls(rest, calls[1..]);
        assert calls == [calls[0]] + calls[1..];
        assert forall k :: 1 <= k < |calls| ==> Sendable(calls[1..])[k - 1] == Sendable(calls)[k];
      } else {
        assert Uses(blocks) == uses;
        ReplayedCalls(rest, calls);
      }
    }
  }

  /** Signed blocks say the reply and make the calls too, whatever else they hold. */
  lemma SignedIsRead(p: Provider, system: SystemValue, tools: seq<ToolSchema>, turns: seq<Turn>, message: Message)
    requires message.Assistant? && FateOf(p, system, tools, turns, message) == Signed
    ensures var turn := Turn(FromAssistant, message.replay.value.blocks);
            |ReadTurn(turn)| == 1 && Means(message, ReadTurn(turn)[0])
  {
    SpokenIsText(message.replay.value.blocks);
    ReplayedCalls(message.replay.value.blocks, message.calls);
  }

  // ---- the conversation ------------------------------------------------------------------------------

  /** The messages that make it to the wire: not the system messages, and not what is skipped. */
  function Heeded(p: Provider, system: SystemValue, tools: seq<ToolSchema>, messages: seq<Message>): seq<Message> {
    if messages == [] then []
    else
      var before, last := messages[..|messages| - 1], messages[|messages| - 1];
      var turns := Before(p, system, tools, before);
      Heeded(p, system, tools, before) +
      if last.System? || (last.Assistant? && FateOf(p, system, tools, turns, last) == Skipped) then [] else [last]
  }

  predicate AreResults(results: seq<Block>) {
    forall k :: 0 <= k < |results| ==> results[k].ToolResult?
  }

  /** Everything a draft says, flushed or still gathered. */
  function ReadDraft(d: Draft): seq<Utterance> {
    ReadTurns(d.turns) + ReadAll(OutcomeOf, d.results)
  }

  lemma TurnIsReadLast(turns: seq<Turn>, turn: Turn)
    ensures ReadTurns(turns + [turn]) == ReadTurns(turns) + ReadTurn(turn)
  {
    assert (turns + [turn])[..|turns|] == turns;
  }

  lemma FlushReadsTheSame(d: Draft)
    requires AreResults(d.results)
    ensures ReadTurns(Flush(d).turns) == ReadDraft(d) && Flush(d).results == []
  {
    TurnIsReadLast(d.turns, Turn(FromUser, d.results));
    NothingMore(ReadTurns(d.turns));
  }

  lemma SayOneMore(messages: seq<Message>, said: seq<Utterance>, message: Message, next: Utterance)
    requires Say(messages, said) && Means(message, next)
    ensures Say(messages + [message], said + [next])
  {}

  /** One more message that makes a turn of its own. */
  lemma TurnSays(d: Draft, messages: seq<Message>, message: Message, turn: Turn)
    requires AreResults(d.results) && Say(messages, ReadDraft(d))
    requires |ReadTurn(turn)| == 1 && Means(message, ReadTurn(turn)[0])
    ensures Say(messages + [message], ReadDraft(Draft(Flush(d).turns + [turn], [], 0)))
  {
    FlushReadsTheSame(d);
    TurnIsReadLast(Flush(d).turns, turn);
    assert ReadTurn(turn) == [ReadTurn(turn)[0]];
    NothingMore(ReadTurns(Flush(d).turns + [turn]));
    SayOneMore(messages, ReadDraft(d), message, ReadTurn(turn)[0]);
  }

  lemma ResultSays(d: Draft, messages: seq<Message>, message: Message)
    requires message.Tool? && AreResults(d.results) && Say(messages, ReadDraft(d))
    ensures Say(messages + [message], ReadDraft(d.(results := d.results + [ResultBlock(message)])))
  {
    var block := ResultBlock(message);
    ResultIsRead(message);
    ReadsJoin(OutcomeOf, d.results, [block]);
    ReadsOne(OutcomeOf, block);
    Regrouped(ReadTurns(d.turns), ReadAll(OutcomeOf, d.results), OutcomeOf(block));
    SayOneMore(messages, ReadDraft(d), message, Outcome(block.id, block.content, block.isError));
  }

  lemma AnswerSays(
      p: Provider, system: SystemValue, tools: seq<ToolSchema>, d: Draft, messages: seq<Message>, message: Message)
    requires message.Assistant? && AreResults(d.results) && Say(messages, ReadDraft(d))
    ensures var d' := Add(p, system, tools, d, message);
            var skips := FateOf(p, system, tools, Flush(d).turns, message) == Skipped;
            d'.results == [] && Say(messages + (if skips then [] else [message]), ReadDraft(d'))
  {
    match FateOf(p, system, tools, Flush(d).turns, message)
    case Signed =>
      SignedIsRead(p, system, tools, Flush(d).turns, message);
      TurnSays(d, messages, message, Turn(FromAssistant, message.replay.value.blocks));
    case Neutral =>
      NeutralIsRead(message);
      TurnSays(d, messages, message, NeutralTurn(message));
    case Skipped =>
      FlushReadsTheSame(d);
      NothingMore(messages);
      NothingMore(ReadTurns(Flush(d).turns));
  }

  lemma {:induction false} FoldSays(
      p: Provider, system: SystemValue, tools: seq<ToolSchema>, messages: seq<Message>)
    ensures AreResults(Fold(p, system, tools, messages).results)
    ensures Say(Heeded(p, system, tools, messages), ReadDraft(Fold(p, system, tools, messages)))
  {
    if messages != [] {
      var before, message := messages[..|messages| - 1], messages[|messages| - 1];
      var d := Fold(p, system, tools, before);
      FoldSays(p, system, tools, before);
      match message
      case System(_) => NothingMore(Heeded(p, system, tools, before));
      case Tool(_, _, _, _) =>
        ResultIsRead(message);
        ResultSays(d, Heeded(p, system, tools, before), message);
      case User(_, _) =>
        UserIsRead(message);
        TurnSays(d, Heeded(p, system, tools, before), message, UserTurn(message));
      case Assistant(_, _, _, _) => AnswerSays(p, system, tools, d, Heeded(p, system, tools, before), message);
    }
  }

  /** What is left out is counted: nothing but system messages and what is skipped. */
  lemma {:induction false} OnlySkipsAreMissing(
      p: Provider, system: SystemValue, tools: seq<ToolSchema>, messages: seq<Message>)
    ensures |Heeded(p, system, tools, messages)| + Fold(p, system, tools, messages).skipped == |Uttered(messages)|
    ensures Fold(p, system, tools, messages).skipped == 0 ==> Heeded(p, system, tools, messages) == Uttered(messages)
  {
    if messages != [] {
      OnlySkipsAreMissing(p, system, tools, messages[..|messages| - 1]);
    }
  }

  /**
    Whatever the conversation: read turn by turn, what is sent is what its messages say, in order and
    one by one: the human's text and parts, each reply's text and calls, signed or not, and each
    result's id, error flag and content. Only system messages and what is skipped are missing.
   */
  lemma TheWireSaysTheConversation(p: Provider, tools: seq<ToolSchema>, messages: seq<Message>)
    ensures var heeded := Heeded(p, CanonicalSystem(messages), tools, messages);
            && Say(heeded, ReadTurns(Canonical(p, tools, messages)))
            && |heeded| + SkippedIn(p, tools, messages) == |Uttered(messages)|
            && (SkippedIn(p, tools, messages) == 0 ==> heeded == Uttered(messages))
  {
    var system := CanonicalSystem(messages);
    FoldSays(p, system, tools, messages);
    FlushReadsTheSame(Fold(p, system, tools, messages));
    OnlySkipsAreMissing(p, system, tools, messages);
  }

  // ---- the system text ---------------------------------------------------------------------------------

  predicate Blank(text: string) {
    forall k :: 0 <= k < |text| ==> text[k] in {' ', '\t', '\n', '\r'} || text[k] as int in {11, 12}
  }

  /** `core` is `text` without the blanks before it and after it, and begins and ends with something else. */
  ghost predicate Core(text: string, core: string) {
    && (exists before, after :: text == before + core + after && Blank(before) && Blank(after))
    && core != "" && !Blank([core[0]]) && !Blank([core[|core| - 1]])
  }

  lemma SpaceIsBlank(c: char)
    ensures IsSpace(c) <==> Blank([c])
  {
    assert [c][0] == c;
  }

  lemma {:induction false} TrimStartDrops(text: string)
    ensures var n := |text| - |TrimStart(text)|;
            && 0 <= n && TrimStart(text) == text[n..] && Blank(text[..n])
            && (TrimStart(text) != "" ==> !Blank([TrimStart(text)[0]]))
  {
    if text != "" {
      SpaceIsBlank(text[0]);
      if IsSpace(text[0]) {
        TrimStartDrops(text[1..]);
        var n := |text| - |TrimStart(text)|;
        assert text[..n] == [text[0]] + text[1..][..n - 1];
      }
    }
  }

  lemma {:induction false} TrimEndDrops(text: string)
    ensures var n := |TrimEnd(text)|;
            && n <= |text| && TrimEnd(text) == text[..n] && Blank(text[n..])
            && (TrimEnd(text) != "" ==> !Blank([TrimEnd(text)[n - 1]]))
  {
    if text != "" {
      var last := |text| - 1;
      SpaceIsBlank(text[last]);
      if IsSpace(text[last]) {
        TrimEndDrops(text[..last]);
        var n := |TrimEnd(text)|;
        assert text[n..] == text[..last][n..] + [text[last]];
      }
    }
  }

  /** Trimming leaves the core of a text, and nothing exactly when the text is blank. */
  lemma TrimIsCore(text: string)
    ensures if Blank(text) then Trim(text) == "" else Core(text, Trim(text))
  {
    TrimStartDrops(text);
    var start := TrimStart(text);
    var n := |text| - |start|;
    TrimEndDrops(start);
    var core, m := TrimEnd(start), |TrimEnd(start)|;
    assert text == text[..n] + core + start[m..];
    if core != "" {
      assert core[0] == start[0];
      assert text[n] == core[0];
      assert !Blank(text) by {
        assert [core[0]][0] == text[n];
      }
    } else {
      assert text == text[..n] + start;
    }
  }

  /** The texts of the system messages that are not blank. */
  function SystemTexts(messages: seq<Message>): seq<string> {
    if messages == [] then []
    else
      var last := messages[|messages| - 1];
      SystemTexts(messages[..|messages| - 1]) + if last.System? && !Blank(last.text) then [last.text] else []
  }

  /** The system parts that are sent are the cores of those texts, one by one and in order. */
  lemma {:induction false} SystemPartsAreCores(messages: seq<Message>)
    ensures |SystemParts(messages)| == |SystemTexts(messages)|
    ensures forall k :: 0 <= k < |SystemParts(messages)| ==> Core(SystemTexts(messages)[k], SystemParts(messages)[k])
  {
    if messages != [] {
      SystemPartsAreCores(messages[..|messages| - 1]);
      if messages[|messages| - 1].System? {
        TrimIsCore(messages[|messages| - 1].text);
      }
    }
  }

  // ---- thinking is sent only with its signature --------------------------------------------------------

  predicate SignedThinking(turn: Turn) {
    forall k :: 0 <= k < |turn.content| ==>
      match turn.content[k]
      case Thinking(_, signature) => turn.role == FromAssistant && signature != ""
      case Redacted(data) => turn.role == FromAssistant && data != ""
      case _ => true
  }

  predicate AllSignedThinking(turns: seq<Turn>) {
    forall k :: 0 <= k < |turns| ==> SignedThinking(turns[k])
  }

  lemma TurnsOfMessagesSign(
      p: Provider, system: SystemValue, tools: seq<ToolSchema>, turns: seq<Turn>, message: Message)
    ensures message.User? ==> SignedThinking(UserTurn(message))
    ensures message.Assistant? ==> SignedThinking(NeutralTurn(message))
    ensures message.Assistant? && FateOf(p, system, tools, turns, message) == Signed ==>
              SignedThinking(Turn(FromAssistant, message.replay.value.blocks))
  {
    match message
    case User(_, parts) => if parts.Some? { PartsAreRead(parts.value); }
    case Assistant(_, _, _, _) => NeutralIsTextThenCalls(message);
    case _ =>
  }

  lemma MessageSignsThinking(p: Provider, system: SystemValue, tools: seq<ToolSchema>, d: Draft, message: Message)
    requires AreResults(d.results) && AllSignedThinking(d.turns)
    ensures AreResults(Add(p, system, tools, d, message).results)
    ensures AllSignedThinking(Add(p, system, tools, d, message).turns)
  {
    TurnsOfMessagesSign(p, system, tools, Flush(d).turns, message);
    assert SignedThinking(Turn(FromUser, d.results));
  }

  lemma {:induction false} FoldSignsThinking(
      p: Provider, system: SystemValue, tools: seq<ToolSchema>, messages: seq<Message>)
    ensures AreResults(Fold(p, system, tools, messages).results)
    ensures AllSignedThinking(Fold(p, system, tools, messages).turns)
  {
    if messages != [] {
      var before := messages[..|messages| - 1];
      FoldSignsThinking(p, system, tools, before);
      MessageSignsThinking(p, system, tools, Fold(p, system, tools, before), messages[|messages| - 1]);
    }
  }

  /** No thinking is ever sent without its signature, nor any in a user turn. */
  lemma ThinkingIsSigned(p: Provider, tools: seq<ToolSchema>, messages: seq<Message>)
    ensures AllSignedThinking(Canonical(p, tools, messages))
  {
    FoldSignsThinking(p, CanonicalSystem(messages), tools, messages);
  }

  // ---- no reply is sent empty ---------------------------------------------------------------------------

  predicate RepliesSpeak(turns: seq<Turn>) {
    forall k :: 0 <= k < |turns| && turns[k].role == FromAssistant ==> turns[k].content != []
  }

  lemma ReplySpeaks(p: Provider, system: SystemValue, tools: seq<ToolSchema>, d: Draft, message: Message)
    requires message.Assistant? && message.Speaks() && RepliesSpeak(d.turns)
    ensures RepliesSpeak(Add(p, system, tools, d, message).turns)
  {
    assert FateOf(p, system, tools, Flush(d).turns, message) == Neutral ==> NeutralTurn(message).content != [] by {
      if message.calls != [] {
        assert EncodeCalls(message.calls) != [];
      }
    }
  }

  lemma {:induction false} FoldSpeaks(
      p: Provider, system: SystemValue, tools: seq<ToolSchema>, messages: seq<Message>)
    requires forall k :: 0 <= k < |messages| ==> messages[k].Speaks()
    ensures RepliesSpeak(Fold(p, system, tools, messages).turns)
  {
    if messages != [] {
      var before, message := messages[..|messages| - 1], messages[|messages| - 1];
      FoldSpeaks(p, system, tools, before);
      if message.Assistant? {
        ReplySpeaks(p, system, tools, Fold(p, system, tools, before), message);
      }
    }
  }

  /** An assistant turn is never sent empty: one that has nothing to say but its replay is skipped. */
  lemma NoReplyIsEmpty(p: Provider, tools: seq<ToolSchema>, messages: seq<Message>)
    requires forall k :: 0 <= k < |messages| ==> messages[k].Speaks()
    ensures RepliesSpeak(Canonical(p, tools, messages))
  {
    FoldSpeaks(p, CanonicalSystem(messages), tools, messages);
  }
}
