/** What the managed grammar gives the encoder: pairing survives on the wire. */
module GrammarOnTheWire {
  import opened Wrappers
  import opened Messages
  import opened Encoder
  import opened EncoderProofs
  import opened Meaning
  import opened WireMeaning
  import opened Grammar

  // ---- what the grammar gives the encoder ------------------------------------------------------------

  predicate OnlyResults(content: seq<Block>) {
    forall k :: 0 <= k < |content| ==> content[k].ToolResult?
  }

  /** Whether `answer` is the user turn whose results answer exactly the uses of `asked`. */
  predicate IsAnswer(asked: Turn, answer: Turn) {
    asked.role == FromAssistant && answer.role == FromUser && OnlyResults(answer.content)
    && multiset(ResultIds(answer.content)) == multiset(UseIds(asked.content))
  }

  /** Turn `i` is answered at once if it uses tools, and holds results only if it is an answer. */
  predicate InPlace(turns: seq<Turn>, i: nat)
    requires i < |turns|
  {
    && (UseIds(turns[i].content) != [] ==> i + 1 < |turns| && IsAnswer(turns[i], turns[i + 1]))
    && (ResultIds(turns[i].content) != [] ==>
          0 < i && UseIds(turns[i - 1].content) != [] && IsAnswer(turns[i - 1], turns[i]))
  }

  /** Every turn with tool uses is answered by the next turn, and results stand nowhere else. */
  predicate Closed(turns: seq<Turn>) {
    forall i :: 0 <= i < |turns| ==> InPlace(turns, i)
  }

  /** The last turn asks; `results` answer some of it and `pending` is what is left. */
  predicate Open(turns: seq<Turn>, results: seq<Block>, pending: multiset<string>) {
    turns != [] &&
    var last := |turns| - 1;
    && Closed(turns[..last]) && turns[last].role == FromAssistant
    && UseIds(turns[last].content) != [] && ResultIds(turns[last].content) == []
    && OnlyResults(results) && multiset(UseIds(turns[last].content)) == pending + multiset(ResultIds(results))
  }

  predicate InStep(d: Draft, pending: multiset<string>) {
    (d.results == [] && pending == multiset{} && Closed(d.turns)) || Open(d.turns, d.results, pending)
  }

  lemma {:induction false} ResultIdsAppend(a: seq<Block>, b: Block)
    requires b.ToolResult?
    ensures ResultIds(a + [b]) == ResultIds(a) + [b.id]
  {
    if a == [] {
      assert a + [b] == [b];
    } else {
      ResultIdsAppend(a[1..], b);
      assert (a + [b])[1..] == a[1..] + [b] && (a + [b])[0] == a[0];
    }
  }

  lemma {:induction false} SomeResults(content: seq<Block>)
    requires OnlyResults(content)
    ensures |ResultIds(content)| == |content| && UseIds(content) == []
  {
    if content != [] {
      SomeResults(content[1..]);
    }
  }

  lemma AnswerCloses(turns: seq<Turn>, results: seq<Block>)
    requires Open(turns, results, multiset{}) && results != []
    ensures Closed(turns + [Turn(FromUser, results)])
  {
    var all, last := turns + [Turn(FromUser, results)], |turns| - 1;
    SomeResults(results);
    assert IsAnswer(all[last], all[last + 1]);
    forall i | 0 <= i < |all|
      ensures InPlace(all, i)
    {
      if i < last {
        assert InPlace(turns[..last], i);
      }
    }
  }

  /** Flushing answers an open turn whose calls have all been met. */
  lemma FlushCloses(d: Draft)
    requires InStep(d, multiset{})
    ensures Closed(Flush(d).turns)
  {
    if Open(d.turns, d.results, multiset{}) {
      var uses := UseIds(d.turns[|d.turns| - 1].content);
      assert uses[0] in multiset(uses);
      AnswerCloses(d.turns, d.results);
    }
  }

  lemma {:induction false} PartsHoldNoCalls(parts: seq<Part>)
    ensures UseIds(EncodeParts(parts)) == [] && ResultIds(EncodeParts(parts)) == []
  {
    if parts != [] {
      PartsHoldNoCalls(parts[1..]);
    }
  }

  lemma {:induction false} CallsBecomeUses(calls: seq<Call>)
    ensures UseIds(EncodeCalls(calls)) == CallIds(calls) && ResultIds(EncodeCalls(calls)) == []
  {
    if calls != [] {
      CallsBecomeUses(calls[1..]);
    }
  }

  lemma {:induction false} ReplayUses(blocks: seq<Block>, calls: seq<Call>)
    requires forall k :: 0 <= k < |blocks| ==> ReplayBlock(blocks[k])
    requires SameCalls(Uses(blocks), calls)
    ensures UseIds(blocks) == CallIds(calls) && ResultIds(blocks) == []
    decreases |blocks|
  {
    if blocks != [] {
      var uses := Uses(blocks[1..]);
      if blocks[0].ToolUse? {
        assert Uses(blocks) == [blocks[0]] + uses;
        assert forall k :: 0 <= k < |uses| ==> uses[k] == Uses(blocks)[k + 1];
        ReplayUses(blocks[1..], calls[1..]);
      } else {
        assert Uses(blocks) == uses;
        ReplayUses(blocks[1..], calls);
      }
    }
  }

  /** An assistant turn, however it is sent, asks for exactly its message's calls. */
  lemma SentCalls(p: Provider, system: SystemValue, tools: seq<ToolSchema>, turns: seq<Turn>, message: Message)
    requires message.Assistant?
    ensures var fate := FateOf(p, system, tools, turns, message);
            && (fate == Signed ==> UseIds(message.replay.value.blocks) == CallIds(message.calls)
                                   && ResultIds(message.replay.value.blocks) == [])
            && (fate == Neutral ==> UseIds(NeutralTurn(message).content) == CallIds(message.calls)
                                    && ResultIds(NeutralTurn(message).content) == [])
  {
    if FateOf(p, system, tools, turns, message) == Signed {
      ReplayUses(message.replay.value.blocks, message.calls);
    }
    CallsBecomeUses(message.calls);
    var calls := EncodeCalls(message.calls);
    if message.Reply() != "" {
      assert ([Text(message.Reply())] + calls)[1..] == calls;
    } else {
      assert NeutralTurn(message).content == calls;
    }
  }

  /** A turn with no results extends a closed list; the list is open when the turn asks. */
  lemma Extend(turns: seq<Turn>, turn: Turn)
    requires Closed(turns) && ResultIds(turn.content) == [] && (turn.role == FromUser ==> UseIds(turn.content) == [])
    ensures InStep(Draft(turns + [turn], [], 0), multiset(UseIds(turn.content)))
  {
    var all := turns + [turn];
    assert all[..|turns|] == turns;
    if UseIds(turn.content) == [] {
      forall i | 0 <= i < |all|
        ensures InPlace(all, i)
      {
        if i < |turns| {
          assert InPlace(turns, i);
        } else if 0 < i {
          assert InPlace(turns, i - 1);
        }
      }
    } else {
      assert multiset(UseIds(turn.content)) == multiset(UseIds(turn.content)) + multiset(ResultIds([]));
    }
  }

  lemma MoveOne(id: string, left: multiset<string>, right: multiset<string>)
    requires id in left
    ensures left + right == (left - multiset{id}) + (right + multiset{id})
  {}

  lemma ResultKeeps(d: Draft, message: Message, pending: multiset<string>)
    requires message.Tool? && message.callId in pending && InStep(d, pending)
    ensures InStep(d.(results := d.results + [ResultBlock(message)]), pending - multiset{message.callId})
  {
    ResultIdsAppend(d.results, ResultBlock(message));
    MoveOne(message.callId, pending, multiset(ResultIds(d.results)));
    assert multiset(ResultIds(d.results) + [message.callId])
           == multiset(ResultIds(d.results)) + multiset{message.callId};
  }

  lemma UserKeeps(p: Provider, system: SystemValue, tools: seq<ToolSchema>, d: Draft, message: Message)
    requires message.User? && InStep(d, multiset{})
    ensures InStep(Add(p, system, tools, d, message), multiset{})
  {
    FlushCloses(d);
    if message.parts.Some? {
      PartsHoldNoCalls(message.parts.value);
    }
    Extend(Flush(d).turns, UserTurn(message));
  }

  lemma AssistantKeeps(p: Provider, system: SystemValue, tools: seq<ToolSchema>, d: Draft, message: Message)
    requires message.Assistant? && InStep(d, multiset{})
    requires Add(p, system, tools, d, message).skipped == d.skipped
    ensures InStep(Add(p, system, tools, d, message), multiset(CallIds(message.calls)))
  {
    FlushCloses(d);
    var turns := Flush(d).turns;
    SentCalls(p, system, tools, turns, message);
    if FateOf(p, system, tools, turns, message) == Signed {
      Extend(turns, Turn(FromAssistant, message.replay.value.blocks));
    } else {
      Extend(turns, NeutralTurn(message));
    }
  }

  /** The calls still to be answered after one more message, and the ids used by then. */
  function PendingAfter(message: Message, pending: multiset<string>): multiset<string> {
    if message.Tool? then pending - multiset{message.callId} else multiset(CallIds(message.Calls()))
  }

  function SeenAfter(message: Message, seen: set<string>): set<string> {
    if message.Tool? then seen else seen + IdSet(CallIds(message.Calls()))
  }

  lemma ScanSteps(todo: seq<Message>, pending: multiset<string>, seen: set<string>)
    requires todo != [] && ScanPairs(todo, pending, seen) == Accepted
    ensures ScanPairs(todo[1..], PendingAfter(todo[0], pending), SeenAfter(todo[0], seen)) == Accepted
    ensures if todo[0].Tool? then todo[0].callId in pending else pending == multiset{}
  {}

  lemma StepKeeps(
      p: Provider, system: SystemValue, tools: seq<ToolSchema>, d: Draft, message: Message,
      pending: multiset<string>)
    requires InStep(d, pending) && !message.System?
    requires if message.Tool? then message.callId in pending else pending == multiset{}
    requires Add(p, system, tools, d, message).skipped == d.skipped
    ensures InStep(Add(p, system, tools, d, message), PendingAfter(message, pending))
  {
    if message.Tool? {
      ResultKeeps(d, message, pending);
    } else if message.User? {
      UserKeeps(p, system, tools, d, message);
    } else {
      AssistantKeeps(p, system, tools, d, message);
    }
  }

  /** When the messages to come skip nothing more, neither does the first of them, nor the rest. */
  lemma SkipsNothingMore(
      p: Provider, system: SystemValue, tools: seq<ToolSchema>, done: seq<Message>, todo: seq<Message>)
    requires todo != [] && Fold(p, system, tools, done + todo).skipped == Fold(p, system, tools, done).skipped
    ensures done + todo == done + [todo[0]] + todo[1..]
    ensures Fold(p, system, tools, done + [todo[0]]) == Add(p, system, tools, Fold(p, system, tools, done), todo[0])
    ensures Fold(p, system, tools, done + [todo[0]]).skipped == Fold(p, system, tools, done).skipped
  {
    assert todo == [todo[0]] + todo[1..];
    Regrouped(done, [todo[0]], todo[1..]);
    FoldLast(p, system, tools, done, todo[0]);
    FoldGrows(p, system, tools, done, [todo[0]]);
    FoldGrows(p, system, tools, done + [todo[0]], todo[1..]);
  }

  lemma {:induction false} ScanCloses(
      p: Provider, system: SystemValue, tools: seq<ToolSchema>, done: seq<Message>, todo: seq<Message>,
      pending: multiset<string>, seen: set<string>)
    requires ScanPairs(todo, pending, seen) == Accepted && (forall k :: 0 <= k < |todo| ==> !todo[k].System?)
    requires InStep(Fold(p, system, tools, done), pending)
    requires Fold(p, system, tools, done + todo).skipped == Fold(p, system, tools, done).skipped
    ensures Closed(Before(p, system, tools, done + todo))
    decreases |todo|
  {
    if todo == [] {
      assert done + todo == done;
      FlushCloses(Fold(p, system, tools, done));
    } else {
      var message := todo[0];
      var next := done + [message];
      SkipsNothingMore(p, system, tools, done, todo);
      ScanSteps(todo, pending, seen);
      StepKeeps(p, system, tools, Fold(p, system, tools, done), message, pending);
      ScanCloses(p, system, tools, next, todo[1..], PendingAfter(message, pending), SeenAfter(message, seen));
    }
  }

  /** Leading system messages add nothing to the turns. */
  lemma {:induction false} SystemPrefix(
      p: Provider, system: SystemValue, tools: seq<ToolSchema>, messages: seq<Message>)
    ensures |SkipSystem(messages)| <= |messages|
    ensures SkipSystem(messages) == messages[|messages| - |SkipSystem(messages)|..]
    ensures forall k :: 0 <= k < |messages| - |SkipSystem(messages)| ==> messages[k].System?
  {
    if messages != [] && messages[0].System? {
      SystemPrefix(p, system, tools, messages[1..]);
      assert forall k :: 1 <= k < |messages| ==> messages[k] == messages[1..][k - 1];
    }
  }

  lemma {:induction false} SystemsFoldToNothing(
      p: Provider, system: SystemValue, tools: seq<ToolSchema>, leading: seq<Message>)
    requires forall k :: 0 <= k < |leading| ==> leading[k].System?
    ensures Fold(p, system, tools, leading) == Draft([], [], 0)
  {
    if leading != [] {
      SystemsFoldToNothing(p, system, tools, leading[..|leading| - 1]);
    }
  }

  /** The messages before the conversation are system messages, and add nothing to the turns. */
  lemma Leading(p: Provider, system: SystemValue, tools: seq<ToolSchema>, messages: seq<Message>)
    returns (leading: seq<Message>)
    ensures messages == leading + SkipSystem(messages) && Fold(p, system, tools, leading) == Draft([], [], 0)
  {
    SystemPrefix(p, system, tools, messages);
    leading := messages[..|messages| - |SkipSystem(messages)|];
    SystemsFoldToNothing(p, system, tools, leading);
  }

  /**
    An accepted conversation that is sent with nothing skipped keeps its pairing on the wire: each
    assistant turn with tool uses is followed at once by one user turn whose results answer exactly
    those uses, and results stand nowhere else. Its last turn is a user turn, so a tail always has
    its place.
   */
  lemma AcceptedConversationsStayPaired(p: Provider, tools: seq<ToolSchema>, messages: seq<Message>)
    requires ValidateSequence(messages) == Accepted && SkippedIn(p, tools, messages) == 0
    ensures Closed(Canonical(p, tools, messages))
    ensures Tailable(Canonical(p, tools, messages))
  {
    var system := CanonicalSystem(messages);
    var leading := Leading(p, system, tools, messages);
    assert Closed([]);
    ScanCloses(p, system, tools, leading, SkipSystem(messages), multiset{}, {});
    EndsOnUser(p, system, tools, messages);
  }

  lemma TwoTurns(
      p: Provider, system: SystemValue, tools: seq<ToolSchema>, leading: seq<Message>, opening: Message,
      memory: Message)
    requires opening.User? && memory.Assistant? && memory.replay.None?
    ensures 1 < |Fold(p, system, tools, leading + [opening] + [memory]).turns|
  {
    FoldLast(p, system, tools, leading, opening);
    FoldLast(p, system, tools, leading + [opening], memory);
  }

  lemma SecondTurnExists(p: Provider, tools: seq<ToolSchema>, messages: seq<Message>, conversation: seq<Message>)
    requires conversation == SkipSystem(messages) && 1 < |conversation|
    requires conversation[0].User? && conversation[1].Assistant? && conversation[1].replay.None?
    ensures 1 < |Canonical(p, tools, messages)|
  {
    var system := CanonicalSystem(messages);
    var leading := Leading(p, system, tools, messages);
    var opening := leading + [conversation[0]] + [conversation[1]];
    TwoTurns(p, system, tools, leading, conversation[0], conversation[1]);
    assert conversation == [conversation[0]] + [conversation[1]] + conversation[2..];
    Regrouped(leading, [conversation[0]], [conversation[1]]);
    Regrouped(leading, [conversation[0]] + [conversation[1]], conversation[2..]);
    FoldGrows(p, system, tools, opening, conversation[2..]);
  }

  /** The head breakpoint of an accepted conversation always names a turn that exists. */
  lemma HeadTurnExists(p: Provider, tools: seq<ToolSchema>, messages: seq<Message>)
    requires ValidateSequence(messages) == Accepted
    ensures Canonical(p, tools, messages) != []
    ensures 1 < |SkipSystem(messages)| && IsGenerated(SkipSystem(messages)[1]) ==> 1 < |Canonical(p, tools, messages)|
  {
    EndsOnUser(p, CanonicalSystem(messages), tools, messages);
    var conversation := SkipSystem(messages);
    if 1 < |conversation| && IsGenerated(conversation[1]) {
      SecondTurnExists(p, tools, messages, conversation);
    }
  }

  lemma EndsOnUser(p: Provider, system: SystemValue, tools: seq<ToolSchema>, messages: seq<Message>)
    requires ValidateSequence(messages) == Accepted
    ensures Tailable(Before(p, system, tools, messages))
  {
    SystemPrefix(p, system, tools, messages);
    assert messages[|messages| - 1] == SkipSystem(messages)[|SkipSystem(messages)| - 1];
  }

  // ---- no result is lost or repeated -----------------------------------------------------------------

  function ResultsOf(messages: seq<Message>): seq<Block> {
    if messages == [] then []
    else
      var last := messages[|messages| - 1];
      ResultsOf(messages[..|messages| - 1]) + (if last.Tool? then [ResultBlock(last)] else [])
  }

  function ResultsIn(turns: seq<Turn>): seq<Block> {
    if turns == [] then [] else ResultsIn(turns[..|turns| - 1]) + Results(turns[|turns| - 1].content)
  }

  lemma {:induction false} NoneWithoutIds(content: seq<Block>)
    requires ResultIds(content) == []
    ensures Results(content) == []
  {
    if content != [] {
      NoneWithoutIds(content[1..]);
    }
  }

  lemma {:induction false} AllResults(content: seq<Block>)
    requires OnlyResults(content)
    ensures Results(content) == content
  {
    if content != [] {
      AllResults(content[1..]);
    }
  }

  lemma FlushMovesResults(d: Draft)
    requires OnlyResults(d.results)
    ensures ResultsIn(Flush(d).turns) == ResultsIn(d.turns) + d.results
  {
    AllResults(d.results);
    assert (d.turns + [Turn(FromUser, d.results)])[..|d.turns|] == d.turns;
  }

  lemma ResultsInAppend(turns: seq<Turn>, turn: Turn)
    requires ResultIds(turn.content) == []
    ensures ResultsIn(turns + [turn]) == ResultsIn(turns)
  {
    NoneWithoutIds(turn.content);
    assert (turns + [turn])[..|turns|] == turns;
  }

  lemma TurnKeepsResults(d: Draft, turn: Turn)
    requires OnlyResults(d.results) && ResultIds(turn.content) == []
    ensures ResultsIn(Flush(d).turns + [turn]) == ResultsIn(d.turns) + d.results
  {
    FlushMovesResults(d);
    ResultsInAppend(Flush(d).turns, turn);
  }

  lemma MessageKeepsResults(p: Provider, system: SystemValue, tools: seq<ToolSchema>, d: Draft, message: Message)
    requires OnlyResults(d.results) && !message.System? && !message.Tool?
    ensures Add(p, system, tools, d, message).results == []
    ensures ResultsIn(Add(p, system, tools, d, message).turns) == ResultsIn(d.turns) + d.results
  {
    if message.User? {
      if message.parts.Some? {
        PartsHoldNoCalls(message.parts.value);
      }
      TurnKeepsResults(d, UserTurn(message));
    } else {
      var fate := FateOf(p, system, tools, Flush(d).turns, message);
      SentCalls(p, system, tools, Flush(d).turns, message);
      if fate == Signed {
        TurnKeepsResults(d, Turn(FromAssistant, message.replay.value.blocks));
      } else if fate == Neutral {
        TurnKeepsResults(d, NeutralTurn(message));
      } else {
        FlushMovesResults(d);
      }
    }
  }

  lemma {:induction false} FoldKeepsResults(
      p: Provider, system: SystemValue, tools: seq<ToolSchema>, messages: seq<Message>)
    ensures var d := Fold(p, system, tools, messages);
            OnlyResults(d.results) && ResultsIn(d.turns) + d.results == ResultsOf(messages)
  {
    if messages != [] {
      var before, message := messages[..|messages| - 1], messages[|messages| - 1];
      FoldKeepsResults(p, system, tools, before);
      var d := Fold(p, system, tools, before);
      if message.Tool? {
        var result := [ResultBlock(message)];
        assert ResultsIn(d.turns) + (d.results + result) == (ResultsIn(d.turns) + d.results) + result;
      } else if !message.System? {
        MessageKeepsResults(p, system, tools, d, message);
      }
    }
  }

  /** The tool messages of a conversation. */
  function ToolMessages(messages: seq<Message>): seq<Message> {
    if messages == [] then []
    else
      var last := messages[|messages| - 1];
      ToolMessages(messages[..|messages| - 1]) + if last.Tool? then [last] else []
  }

  /** A result on the wire gives a tool message's id, its error flag and what it is to carry. */
  predicate Gives(block: Block, message: Message) {
    && block.ToolResult? && message.Tool?
    && block.id == message.callId && block.isError == message.isError && Carries(message, block.content)
  }

  lemma {:induction false} ResultsGiveTheirMessages(messages: seq<Message>)
    ensures |ResultsOf(messages)| == |ToolMessages(messages)|
    ensures forall k :: 0 <= k < |ResultsOf(messages)| ==> Gives(ResultsOf(messages)[k], ToolMessages(messages)[k])
  {
    if messages != [] {
      ResultsGiveTheirMessages(messages[..|messages| - 1]);
      if messages[|messages| - 1].Tool? {
        ResultIsRead(messages[|messages| - 1]);
      }
    }
  }

  /**
    Whatever the conversation, its results reach the wire exactly once each and in order, each with its
    id, its error flag and its content.
   */
  lemma NoResultIsLost(p: Provider, tools: seq<ToolSchema>, messages: seq<Message>)
    ensures ResultsIn(Canonical(p, tools, messages)) == ResultsOf(messages)
    ensures var sent, given := ResultsIn(Canonical(p, tools, messages)), ToolMessages(messages);
            |sent| == |given| && forall k :: 0 <= k < |sent| ==> Gives(sent[k], given[k])
  {
    var system := CanonicalSystem(messages);
    ResultsGiveTheirMessages(messages);
    FoldKeepsResults(p, system, tools, messages);
    FlushMovesResults(Fold(p, system, tools, messages));
  }
}
