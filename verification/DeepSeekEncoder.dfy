/** The chat-completions message list: images of tool results travel in user messages of their own. */
module DeepSeekEncoder {
  import opened Wrappers
  import opened Messages

  /** A message as it is encoded, a labelled tool message, or the attachment the label refers to. */
  datatype WireMessage =
    | Encoded(message: Message)
    | Labelled(callId: string, isError: bool)
    | Attachment(callId: string, isError: bool, parts: seq<Part>)

  predicate CarriesImage(message: Message) {
    message.Tool? && message.parts.Some? && HasImage(message.parts.value)
  }

  /** What a message says on the wire, apart from its attachment. */
  function Said(message: Message): seq<WireMessage> {
    if message.IsReplayOnly() then []
    else if CarriesImage(message) then [Labelled(message.callId, message.isError)]
    else [Encoded(message)]
  }

  function Attached(message: Message): seq<WireMessage> {
    if CarriesImage(message) then [Attachment(message.callId, message.isError, message.parts.value)] else []
  }

  datatype State = State(turns: seq<WireMessage>, attachments: seq<WireMessage>) {
    function All(): seq<WireMessage> {
      turns + attachments
    }
  }

  function Step(s: State, message: Message): State {
    if message.Tool? then State(s.turns + Said(message), s.attachments + Attached(message))
    else State(s.turns + s.attachments + Said(message), [])
  }

  function After(messages: seq<Message>): State {
    if messages == [] then State([], []) else Step(After(messages[..|messages| - 1]), messages[|messages| - 1])
  }

  method EncodeMessages(messages: seq<Message>) returns (turns: seq<WireMessage>)
    ensures turns == After(messages).All()
  {
    turns := [];
    var attachments: seq<WireMessage> := [];
    for i := 0 to |messages|
      invariant State(turns, attachments) == After(messages[..i])
    {
      var message := messages[i];
      assert messages[..i + 1][..i] == messages[..i];
      if !message.Tool? {
        turns := turns + attachments;
        attachments := [];
      }
      if message.IsReplayOnly() {
        assert turns + [] == turns;
        continue;
      }
      if CarriesImage(message) {
        turns := turns + [Labelled(message.callId, message.isError)];
        attachments := attachments + [Attachment(message.callId, message.isError, message.parts.value)];
      } else {
        assert attachments + [] == attachments;
        turns := turns + [Encoded(message)];
      }
    }
    assert messages[..|messages|] == messages;
    turns := turns + attachments;
  }

  // ---- runs of results -----------------------------------------------------------------------------

  predicate AllResults(messages: seq<Message>) {
    forall k :: 0 <= k < |messages| ==> messages[k].Tool?
  }

  function ResultTurns(run: seq<Message>): seq<WireMessage> {
    if run == [] then [] else ResultTurns(run[..|run| - 1]) + Said(run[|run| - 1])
  }

  function Attachments(run: seq<Message>): seq<WireMessage> {
    if run == [] then [] else Attachments(run[..|run| - 1]) + Attached(run[|run| - 1])
  }

  lemma OneMore(messages: seq<Message>, message: Message)
    ensures After(messages + [message]) == Step(After(messages), message)
  {
    assert (messages + [message])[..|messages|] == messages;
  }

  /** After a run of results its messages are sent, and its attachments wait. */
  predicate Gathered(before: seq<Message>, run: seq<Message>) {
    After(before + run) == State(After(before).All() + ResultTurns(run), Attachments(run))
  }

  lemma {:induction false} RunGathers(before: seq<Message>, run: seq<Message>)
    requires AllResults(run) && (before == [] || !before[|before| - 1].Tool?)
    ensures Gathered(before, run)
  {
    if run == [] {
      NothingGathered(before);
    } else {
      var n := |run| - 1;
      RunGathers(before, run[..n]);
      OneMoreGathers(before, run[..n], run[n]);
      assert run[..n] + [run[n]] == run;
    }
  }

  lemma NothingGathered(before: seq<Message>)
    requires before == [] || !before[|before| - 1].Tool?
    ensures Gathered(before, [])
  {
    NothingMore(before);
    NothingMore(After(before).turns);
  }

  lemma OneMoreGathers(before: seq<Message>, run: seq<Message>, result: Message)
    requires result.Tool?
    requires Gathered(before, run)
    ensures Gathered(before, run + [result])
  {
    Regrouped(before, run, [result]);
    OneMore(before + run, result);
    assert (run + [result])[..|run|] == run;
    ResultGathers(After(before).All(), ResultTurns(run), Attachments(run), result);
  }

  lemma ResultGathers(sent: seq<WireMessage>, turns: seq<WireMessage>, attachments: seq<WireMessage>, result: Message)
    requires result.Tool?
    ensures Step(State(sent + turns, attachments), result)
            == State(sent + (turns + Said(result)), attachments + Attached(result))
  {
    Regrouped(sent, turns, Said(result));
  }

  /** A step adds the same to whatever was sent before. */
  lemma StepUnder(sent: seq<WireMessage>, s: State, message: Message)
    ensures Step(State(sent + s.turns, s.attachments), message)
         == State(sent + Step(s, message).turns, Step(s, message).attachments)
  {
    if message.Tool? {
      Regrouped(sent, s.turns, Said(message));
    } else {
      Regrouped(sent, s.turns, s.attachments);
      Regrouped(sent, s.All(), Said(message));
    }
  }

  /** What follows a message that is not a result does not depend on what came before it. */
  lemma {:induction false} RestIsIndependent(before: seq<Message>, after: seq<Message>)
    requires after != [] && !after[0].Tool?
    ensures After(before + after) == State(After(before).All() + After(after).turns, After(after).attachments)
  {
    var n := |after| - 1;
    assert before + after == (before + after[..n]) + [after[n]];
    OneMore(before + after[..n], after[n]);
    var all := After(before).All();
    if n == 0 {
      assert before + after[..0] == before && after[..0] == [];
      assert After(after).turns == Said(after[0]);
    } else {
      RestIsIndependent(before, after[..n]);
      StepUnder(all, After(after[..n]), after[n]);
    }
  }

  /**
    A whole run of results is sent one message after the other, in order, and only then the
    attachments of the run, in order: nothing ever separates the results a turn is owed.
   */
  lemma ResultsStayTogether(before: seq<Message>, run: seq<Message>, after: seq<Message>)
    requires AllResults(run)
    requires before == [] || !before[|before| - 1].Tool?
    requires after == [] || !after[0].Tool?
    ensures After(before + run + after).All()
         == (After(before).All() + ResultTurns(run) + Attachments(run)) + After(after).All()
  {
    RunGathers(before, run);
    var all := After(before).All() + ResultTurns(run) + Attachments(run);
    if after == [] {
      assert before + run + after == before + run;
      assert all + After(after).All() == all;
    } else {
      RestIsIndependent(before + run, after);
      Regrouped(all, After(after).turns, After(after).attachments);
    }
  }

  /** Each result gives exactly one message, and an attachment exactly when it carries an image. */
  lemma {:induction false} OneMessageEach(run: seq<Message>)
    requires AllResults(run)
    ensures |ResultTurns(run)| == |run|
    ensures forall k | 0 <= k < |run| :: [ResultTurns(run)[k]] == Said(run[k])
  {
    if run != [] {
      OneMessageEach(run[..|run| - 1]);
    }
  }

  // ---- what each result becomes ----------------------------------------------------------------------

  /** Whether the results hold an image among their parts. */
  predicate ShowsImage(message: Message) {
    match message
    case Tool(_, _, Some(parts), _) => exists k :: 0 <= k < |parts| && parts[k].ImagePart?
    case _ => false
  }

  function WithImages(run: seq<Message>): seq<Message> {
    if run == [] then []
    else WithImages(run[..|run| - 1]) + if ShowsImage(run[|run| - 1]) then [run[|run| - 1]] else []
  }

  /** A message with images is sent as a label for its call and its error flag; any other as it is. */
  predicate SaysIt(message: Message, turn: WireMessage)
    requires message.Tool?
  {
    if ShowsImage(message) then turn == Labelled(message.callId, message.isError) else turn == Encoded(message)
  }

  /** An attachment carries every part of its result, under the same call and error flag. */
  predicate Attaches(message: Message, attachment: WireMessage) {
    ShowsImage(message) && attachment == Attachment(message.callId, message.isError, message.parts.value)
  }

  /**
    Of a run of results: the messages say them one by one, and the attachments are those of the results
    with images, one by one and in order, so no image is lost and none is sent twice.
   */
  lemma {:induction false} EveryImageIsAttached(run: seq<Message>)
    requires AllResults(run)
    ensures |ResultTurns(run)| == |run|
    ensures forall k :: 0 <= k < |run| ==> run[k].Tool? && SaysIt(run[k], ResultTurns(run)[k])
    ensures |Attachments(run)| == |WithImages(run)|
    ensures forall k :: 0 <= k < |Attachments(run)| ==> Attaches(WithImages(run)[k], Attachments(run)[k])
  {
    if run != [] {
      EveryImageIsAttached(run[..|run| - 1]);
    }
  }

  /** Any other message is sent as it is, unless only another protocol could say it. */
  lemma OthersAreSent(messages: seq<Message>, message: Message)
    requires !message.Tool?
    ensures var only := message.Assistant? && message.replay.Some? && message.Reply() == "" && message.calls == [];
            After(messages + [message]).All() == After(messages).All() + if only then [] else [Encoded(message)]
  {
    OneMore(messages, message);
    NothingMore(After(messages).All() + Said(message));
  }
}
