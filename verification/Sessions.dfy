/** Conversations as the adapter makes them: each reply retained with the digest of its own request. */
module Sessions {
  import opened Wrappers
  import opened Messages
  import opened Encoder
  import opened EncoderProofs
  import opened LeadingRuns

  /** What may follow a reply: results and user messages. */
  predicate OnlyAnswers(messages: seq<Message>) {
    forall k :: 0 <= k < |messages| ==> messages[k].Tool? || messages[k].User?
  }

  // ---- one reply more ------------------------------------------------------------------------------------

  lemma NoSystemInAnswers(messages: seq<Message>)
    requires OnlyAnswers(messages)
    ensures SystemParts(messages) == []
  {
    if messages != [] {
      NoSystemInAnswers(messages[..|messages| - 1]);
    }
  }

  /** Whatever follows without system text, a turn is judged as it was. */
  lemma FateIsKept(
      p: Provider, tools: seq<ToolSchema>, messages: seq<Message>, reply: Message, rest: seq<Message>, i: nat)
    requires i < |messages| && messages[i].Assistant? && reply.Assistant? && OnlyAnswers(rest)
    ensures (messages + [reply] + rest)[i] == messages[i]
    ensures FateAt(p, tools, messages + [reply] + rest, i) == FateAt(p, tools, messages, i)
  {
    NoSystemAdded(messages, reply, rest);
    Regrouped(messages, [reply], rest);
    assert (messages + ([reply] + rest))[..i] == messages[..i];
  }

  lemma OnlyTheReply(messages: seq<Message>, reply: Message, rest: seq<Message>, i: nat)
    requires |messages| <= i < |messages + [reply] + rest| && OnlyAnswers(rest)
    ensures (messages + [reply] + rest)[i].Assistant? ==> i == |messages|
    ensures (messages + [reply] + rest)[|messages|] == reply
  {
    if |messages| < i {
      assert (messages + [reply] + rest)[i] == rest[i - |messages| - 1];
    }
  }

  /** The reply is the only new assistant turn, and the earlier ones keep their fates. */
  lemma OneReplyMore(p: Provider, tools: seq<ToolSchema>, messages: seq<Message>, reply: Message, rest: seq<Message>)
    requires reply.Assistant? && OnlyAnswers(rest)
    ensures var next := messages + [reply] + rest;
            && next[|messages|] == reply
            && (AllSigned(p, tools, next) <==>
                  AllSigned(p, tools, messages) && FateAt(p, tools, next, |messages|) == Signed)
            && (LeadingRun(p, tools, next) <==>
                  LeadingRun(p, tools, messages)
                  && (FateAt(p, tools, next, |messages|) == Signed ==> AllSigned(p, tools, messages)))
  {
    var next := messages + [reply] + rest;
    OnlyTheReply(messages, reply, rest, |messages|);
    forall i | 0 <= i < |messages| && messages[i].Assistant?
      ensures next[i] == messages[i] && FateAt(p, tools, next, i) == FateAt(p, tools, messages, i)
    {
      FateIsKept(p, tools, messages, reply, rest, i);
    }
    forall i | 0 <= i < |messages| ensures next[i] == messages[i] {}
    forall i | |messages| < i < |next| ensures !next[i].Assistant? {
      OnlyTheReply(messages, reply, rest, i);
    }
  }

  /**
    A reply bound to its request's digest without a tail leaves a leading run exactly when everything
    before it is sent signed.
   */
  lemma AReplyLeavesALeadingRun(p: Provider, request: Request, across: bool, reply: Message, rest: seq<Message>)
    requires Encodable(p, request) && (request.tail.None? || across)
    requires Bound(p, reply, ReplayDigest(p, request, across)) && OnlyAnswers(rest)
    ensures LeadingRun(p, request.tools, request.messages + [reply] + rest)
            <==> AllSigned(p, request.tools, request.messages)
    ensures AllSigned(p, request.tools, request.messages + [reply] + rest)
            <==> AllSigned(p, request.tools, request.messages)
  {
    NoSystemInAnswers(rest);
    ReplyIsReplayed(p, request, across, reply, rest);
    OneReplyMore(p, request.tools, request.messages, reply, rest);
    if AllSigned(p, request.tools, request.messages) {
      assert LeadingRun(p, request.tools, request.messages);
    }
  }

  // ---- a whole session -----------------------------------------------------------------------------------

  /** One exchange with the provider: the request, its reply as it is retained, and what is said next. */
  datatype Step = Step(request: Request, across: bool, reply: Message, rest: seq<Message>) {
    /** The reply is retained with blocks, under a digest that leaves a tail out or had none to include. */
    predicate Keeps() {
      && reply.Assistant? && reply.replay.Some? && reply.replay.value.protocol == PROTOCOL
      && (request.tail.None? || across)
    }
  }

  function Conversation(start: seq<Message>, steps: seq<Step>): seq<Message> {
    if steps == [] then start
    else
      var last := steps[|steps| - 1];
      Conversation(start, steps[..|steps| - 1]) + [last.reply] + last.rest
  }

  /**
    A reply to the conversation so far: retained bound to its own request, or with no replay, or with
    one of another protocol.
   */
  predicate Answers(p: Provider, tools: seq<ToolSchema>, messages: seq<Message>, step: Step) {
    && step.request.messages == messages && step.request.tools == tools && Encodable(p, step.request)
    && step.reply.Assistant? && OnlyAnswers(step.rest)
    && (|| step.reply.replay.None?
        || step.reply.replay.value.protocol != PROTOCOL
        || Bound(p, step.reply, ReplayDigest(p, step.request, step.across)))
  }

  /** Each step answers the conversation the steps before it made. */
  predicate Session(p: Provider, tools: seq<ToolSchema>, start: seq<Message>, steps: seq<Step>) {
    steps != [] ==>
      var before := steps[..|steps| - 1];
      Session(p, tools, start, before) && Answers(p, tools, Conversation(start, before), steps[|steps| - 1])
  }

  predicate AllKeep(steps: seq<Step>) {
    forall k :: 0 <= k < |steps| ==> steps[k].Keeps()
  }

  /** No step that keeps comes after one that does not. */
  predicate KeepersLead(steps: seq<Step>) {
    forall i, j :: 0 <= i < j < |steps| && steps[j].Keeps() ==> steps[i].Keeps()
  }

  predicate SomeKeeps(steps: seq<Step>) {
    exists k :: 0 <= k < |steps| && steps[k].Keeps()
  }

  lemma OneStepMore(steps: seq<Step>)
    requires steps != []
    ensures var before, last := steps[..|steps| - 1], steps[|steps| - 1];
            && (AllKeep(steps) <==> AllKeep(before) && last.Keeps())
            && (SomeKeeps(steps) <==> SomeKeeps(before) || last.Keeps())
            && (KeepersLead(steps) <==> KeepersLead(before) && (last.Keeps() ==> AllKeep(before)))
  {
    var before := steps[..|steps| - 1];
    assert forall k :: 0 <= k < |before| ==> before[k] == steps[k];
    if SomeKeeps(before) {
      var k :| 0 <= k < |before| && before[k].Keeps();
      assert steps[k].Keeps();
    }
    if AllKeep(before) {
      assert KeepersLead(before);
    }
  }

  /** A reply is sent signed to the next request exactly when its step keeps. */
  lemma KeptIsSigned(p: Provider, tools: seq<ToolSchema>, messages: seq<Message>, step: Step)
    requires Injective(p.fingerprint) && Answers(p, tools, messages, step)
    ensures var next := messages + [step.reply] + step.rest;
            next[|messages|] == step.reply && (FateAt(p, tools, next, |messages|) == Signed <==> step.Keeps())
  {
    NoSystemInAnswers(step.rest);
    OneReplyMore(p, tools, messages, step.reply, step.rest);
    if step.Keeps() {
      ReplyIsReplayed(p, step.request, step.across, step.reply, step.rest);
    } else if step.reply.replay.Some? && step.reply.replay.value.protocol == PROTOCOL {
      ReplyUnderATailIsNeutral(p, step.request, step.reply, step.rest);
    }
  }

  /**
    Of every session, however long and whatever the replies: reply `k` is sent signed from then on
    exactly when its step keeps.
   */
  lemma {:induction false} SignedExactlyWhenKept(
      p: Provider, tools: seq<ToolSchema>, start: seq<Message>, steps: seq<Step>, k: nat)
    requires Injective(p.fingerprint) && Session(p, tools, start, steps) && k < |steps|
    ensures var at := |Conversation(start, steps[..k])|;
            && at < |Conversation(start, steps)| && Conversation(start, steps)[at] == steps[k].reply
            && steps[k].reply.Assistant?
            && (FateAt(p, tools, Conversation(start, steps), at) == Signed <==> steps[k].Keeps())
  {
    var n := |steps| - 1;
    var before := Conversation(start, steps[..n]);
    if k == n {
      KeptIsSigned(p, tools, before, steps[n]);
    } else {
      assert steps[..n][..k] == steps[..k];
      SignedExactlyWhenKept(p, tools, start, steps[..n], k);
      FateIsKept(p, tools, before, steps[n].reply, steps[n].rest, |Conversation(start, steps[..k])|);
    }
  }

  /**
    Of every session: what is sent signed is a leading run if and only if that held at the start, no
    step that keeps follows one that does not, and no step keeps after a start not sent all signed.
   */
  lemma {:induction false} SessionsLeadExactlyWhen(
      p: Provider, tools: seq<ToolSchema>, start: seq<Message>, steps: seq<Step>)
    requires Injective(p.fingerprint) && Session(p, tools, start, steps)
    ensures AllSigned(p, tools, Conversation(start, steps)) <==> AllSigned(p, tools, start) && AllKeep(steps)
    ensures LeadingRun(p, tools, Conversation(start, steps)) <==>
            && LeadingRun(p, tools, start) && KeepersLead(steps)
            && (SomeKeeps(steps) ==> AllSigned(p, tools, start))
  {
    if steps != [] {
      var n := |steps| - 1;
      var before := Conversation(start, steps[..n]);
      SessionsLeadExactlyWhen(p, tools, start, steps[..n]);
      OneStepMore(steps);
      KeptIsSigned(p, tools, before, steps[n]);
      OneReplyMore(p, tools, before, steps[n].reply, steps[n].rest);
      if AllSigned(p, tools, start) {
        assert LeadingRun(p, tools, start);
      }
    }
  }

  // ---- a session that leaves no leading run ----------------------------------------------------------------

  /** The first answer, retained with its thinking under the digest of a request that carried a tail. */
  function TailedReply(p: Provider, tools: seq<ToolSchema>): Message {
    Retained([Thinking("t", "s")], "b", p.fingerprint(Prefix(Absent, tools, Tailed(Opening()[..1], "n"))))
  }

  /** A tailed request and then one without a tail, each answered with thinking. */
  function TwoSteps(p: Provider, tools: seq<ToolSchema>): seq<Step> {
    var answer := TailedReply(p, tools);
    [Step(Request([QUESTION], tools, Some("n"), NoCache), false, answer, [FOLLOW_UP]),
     Step(Request([QUESTION, answer, FOLLOW_UP], tools, None, NoCache), false, SecondReply(p, tools), [])]
  }

  /** A request that ends on one user turn can carry a tail. */
  lemma FirstIsEncodable(p: Provider, tools: seq<ToolSchema>)
    ensures CanonicalSystem([QUESTION]) == Absent && Canonical(p, tools, [QUESTION]) == Opening()[..1]
  {
    assert [QUESTION][..0] == [];
    assert SystemParts([QUESTION]) == SystemParts([QUESTION][..0]) + [];
    OpeningIs(p, tools, ANSWER);
  }

  /** Under an injective digest the first answer is sent as its one text, so the follow-up sees the same turns. */
  lemma TailedIsNeutral(p: Provider, tools: seq<ToolSchema>)
    requires Injective(p.fingerprint)
    ensures FateOf(p, Absent, tools, Opening()[..1], TailedReply(p, tools)) == Neutral
  {
    var bare, tailed := Opening()[..1], Tailed(Opening()[..1], "n");
    assert |tailed[0].content| == |bare[0].content| + 1;
    assert Prefix(Absent, tools, tailed) != Prefix(Absent, tools, bare);
  }

  lemma FollowUpIs(p: Provider, tools: seq<ToolSchema>)
    requires Injective(p.fingerprint)
    ensures CanonicalSystem([QUESTION, TailedReply(p, tools), FOLLOW_UP]) == Absent
    ensures Canonical(p, tools, [QUESTION, TailedReply(p, tools), FOLLOW_UP]) == Opening()
  {
    var answer := TailedReply(p, tools);
    FirstIsEncodable(p, tools);
    TailedIsNeutral(p, tools);
    assert [QUESTION] + [answer] + [FOLLOW_UP] == [QUESTION, answer, FOLLOW_UP];
    NoSystemAdded([QUESTION], answer, [FOLLOW_UP]);
    FoldLast(p, Absent, tools, [QUESTION], answer);
    FoldLast(p, Absent, tools, [QUESTION] + [answer], FOLLOW_UP);
    NothingMore([Text("b")]);
    assert Fold(p, Absent, tools, [QUESTION] + [answer]).turns == Opening()[..2];
  }

  lemma FirstAnswers(p: Provider, tools: seq<ToolSchema>)
    requires p.enveloped(TailedReply(p, tools).replay.value)
    ensures Answers(p, tools, [QUESTION], TwoSteps(p, tools)[0])
  {
    FirstIsEncodable(p, tools);
    RetainedIsSigned(p, Absent, tools, Tailed(Opening()[..1], "n"), [Thinking("t", "s")], "b");
  }

  lemma SecondAnswers(p: Provider, tools: seq<ToolSchema>)
    requires Injective(p.fingerprint) && p.enveloped(SecondReply(p, tools).replay.value)
    ensures Answers(p, tools, [QUESTION, TailedReply(p, tools), FOLLOW_UP], TwoSteps(p, tools)[1])
  {
    FollowUpIs(p, tools);
    RetainedIsSigned(p, Absent, tools, Opening(), [Thinking("t", "s")], "x");
  }

  lemma TwoStepsAreASession(p: Provider, tools: seq<ToolSchema>)
    requires Injective(p.fingerprint)
    requires p.enveloped(TailedReply(p, tools).replay.value) && p.enveloped(SecondReply(p, tools).replay.value)
    ensures Session(p, tools, [QUESTION], TwoSteps(p, tools))
    ensures Conversation([QUESTION], TwoSteps(p, tools)) == Exchange(p, tools, TailedReply(p, tools))
  {
    var steps := TwoSteps(p, tools);
    TheyConverse(p, tools);
    FirstAnswers(p, tools);
    SecondAnswers(p, tools);
    assert steps[..1][..0] == [];
    assert Session(p, tools, [QUESTION], steps[..1]);
  }

  lemma TheyConverse(p: Provider, tools: seq<ToolSchema>)
    ensures var steps, answer := TwoSteps(p, tools), TailedReply(p, tools);
            && Conversation([QUESTION], []) == [QUESTION] && steps[..1] == [steps[0]]
            && Conversation([QUESTION], steps[..1]) == [QUESTION, answer, FOLLOW_UP]
            && Conversation([QUESTION], steps) == Exchange(p, tools, answer)
  {
    var steps, answer := TwoSteps(p, tools), TailedReply(p, tools);
    assert steps[..1] == [steps[0]] && steps[..1][..0] == [];
    assert [QUESTION] + [answer] + [FOLLOW_UP] == [QUESTION, answer, FOLLOW_UP];
    NothingMore([QUESTION, answer, FOLLOW_UP] + [SecondReply(p, tools)]);
  }

  /**
    So the adapter's own replies need not lead, with nothing edited: a first answer made under a tail
    and a second made without one, both with thinking, and only the second is sent signed.
   */
  lemma ATailBreaksTheRun(p: Provider, tools: seq<ToolSchema>)
    requires Injective(p.fingerprint)
    requires p.enveloped(TailedReply(p, tools).replay.value) && p.enveloped(SecondReply(p, tools).replay.value)
    ensures FateAt(p, tools, Exchange(p, tools, TailedReply(p, tools)), 1) == Neutral
    ensures FateAt(p, tools, Exchange(p, tools, TailedReply(p, tools)), 3) == Signed
    ensures !LeadingRun(p, tools, Exchange(p, tools, TailedReply(p, tools)))
    ensures Session(p, tools, [QUESTION], TwoSteps(p, tools))
    ensures Conversation([QUESTION], TwoSteps(p, tools)) == Exchange(p, tools, TailedReply(p, tools))
  {
    var steps := TwoSteps(p, tools);
    TwoStepsAreASession(p, tools);
    SessionsLeadExactlyWhen(p, tools, [QUESTION], steps);
    SignedExactlyWhenKept(p, tools, [QUESTION], steps, 0);
    SignedExactlyWhenKept(p, tools, [QUESTION], steps, 1);
    assert steps[..1][..0] == steps[..0] == [];
    assert Conversation([QUESTION], steps[..1]) == [QUESTION] + [steps[0].reply] + [FOLLOW_UP];
    assert !steps[0].Keeps() && steps[1].Keeps();
  }
}
