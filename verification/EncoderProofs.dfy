/** What signed replay and the cache breakpoints keep from one request to the next. */
module EncoderProofs {
  import opened Wrappers
  import opened Messages
  import opened Encoder

  // ---- extending a conversation --------------------------------------------------------------------

  lemma {:induction false} SystemPartsConcat(a: seq<Message>, b: seq<Message>)
    ensures SystemParts(a + b) == SystemParts(a) + SystemParts(b)
  {
    if b == [] {
      assert a + b == a;
    } else {
      assert (a + b)[..|a + b| - 1] == a + b[..|b| - 1];
      SystemPartsConcat(a, b[..|b| - 1]);
    }
  }

  /** Turns once emitted stay, in order, and a skip stays counted. */
  lemma {:induction false} FoldGrows(
      p: Provider, system: SystemValue, tools: seq<ToolSchema>, a: seq<Message>, b: seq<Message>)
    ensures Fold(p, system, tools, a).turns <= Fold(p, system, tools, a + b).turns
    ensures Fold(p, system, tools, a).skipped <= Fold(p, system, tools, a + b).skipped
  {
    if b == [] {
      assert a + b == a;
    } else {
      assert (a + b)[..|a + b| - 1] == a + b[..|b| - 1];
      FoldGrows(p, system, tools, a, b[..|b| - 1]);
    }
  }

  lemma FoldLast(p: Provider, system: SystemValue, tools: seq<ToolSchema>, a: seq<Message>, message: Message)
    ensures Fold(p, system, tools, a + [message]) == Add(p, system, tools, Fold(p, system, tools, a), message)
  {
    assert (a + [message])[..|a|] == a;
  }

  /** The turn a message becomes when it is sent after `before`. */
  function Emitted(
      p: Provider, system: SystemValue, tools: seq<ToolSchema>, before: seq<Message>,
      message: Message): Option<Turn>
    requires message.User? || message.Assistant?
  {
    if message.User? then Some(UserTurn(message))
    else match FateOf(p, system, tools, Before(p, system, tools, before), message)
      case Signed => Some(Turn(FromAssistant, message.replay.value.blocks))
      case Neutral => Some(NeutralTurn(message))
      case Skipped => None
  }

  /** An emitted turn keeps its place however the conversation goes on. */
  lemma EmittedStays(
      p: Provider, system: SystemValue, tools: seq<ToolSchema>, before: seq<Message>, message: Message,
      after: seq<Message>)
    requires message.User? || message.Assistant?
    requires Emitted(p, system, tools, before, message).Some?
    ensures Before(p, system, tools, before) + [Emitted(p, system, tools, before, message).value]
              <= Fold(p, system, tools, before + [message] + after).turns
              <= Before(p, system, tools, before + [message] + after)
  {
    FoldLast(p, system, tools, before, message);
    FoldGrows(p, system, tools, before + [message], after);
  }

  // ---- signed replay ---------------------------------------------------------------------------------

  /** A reply retained with blocks that are bound to `digest`. */
  predicate Bound(p: Provider, reply: Message, digest: string) {
    reply.Assistant? && reply.replay.Some?
    && reply.replay.value.protocol == PROTOCOL && reply.replay.value.prefixDigest == digest
    && ValidReplay(p, reply.replay.value, reply.Reply(), reply.calls)
  }

  lemma SystemIsItsParts(a: seq<Message>, b: seq<Message>)
    ensures CanonicalSystem(a) == CanonicalSystem(b) <==> SystemParts(a) == SystemParts(b)
  {
    var x, y := SystemParts(a), SystemParts(b);
    if |x| == 1 && |y| == 1 {
      assert x == [x[0]] && y == [y[0]];
    }
  }

  lemma ReplyAddsNoSystem(messages: seq<Message>, reply: Message, rest: seq<Message>)
    requires reply.Assistant?
    ensures CanonicalSystem(messages + [reply] + rest) == CanonicalSystem(messages) <==> SystemParts(rest) == []
  {
    SystemPartsConcat(messages + [reply], rest);
    SystemPartsConcat(messages, [reply]);
    SystemIsItsParts(messages + [reply] + rest, messages);
  }

  /**
    A reply bound to a request's digest, when the digest leaves the tail out or there was none: on
    every extension of the conversation that adds no system text the reply is sent as its original
    blocks, after exactly the turns it answered. With an injective digest that is also the only
    kind of extension on which it is.
   */
  lemma ReplyIsReplayed(p: Provider, request: Request, across: bool, reply: Message, rest: seq<Message>)
    requires Encodable(p, request) && (request.tail.None? || across)
    requires Bound(p, reply, ReplayDigest(p, request, across))
    ensures var next := request.messages + [reply] + rest;
            && (SystemParts(rest) == [] ==>
                  && FateAt(p, request.tools, next, |request.messages|) == Signed
                  && Canonical(p, request.tools, request.messages) + [Turn(FromAssistant, reply.replay.value.blocks)]
                       <= Canonical(p, request.tools, next))
            && (Injective(p.fingerprint) ==>
                  (FateAt(p, request.tools, next, |request.messages|) == Signed <==> SystemParts(rest) == []))
  {
    var messages := request.messages;
    var next := messages + [reply] + rest;
    assert next[..|messages|] == messages && next[|messages|] == reply;
    ReplyAddsNoSystem(messages, reply, rest);
    BoundIsSigned(p, CanonicalSystem(next), CanonicalSystem(messages), request.tools, messages, reply);
    if SystemParts(rest) == [] {
      EmittedStays(p, CanonicalSystem(next), request.tools, messages, reply, rest);
    }
  }

  /** A reply bound under one system is signed under the same, and with an injective digest only there. */
  lemma BoundIsSigned(
      p: Provider, system: SystemValue, bound: SystemValue, tools: seq<ToolSchema>, messages: seq<Message>,
      reply: Message)
    requires Bound(p, reply, p.fingerprint(Prefix(bound, tools, Before(p, bound, tools, messages))))
    ensures var fate := FateOf(p, system, tools, Before(p, system, tools, messages), reply);
            (system == bound ==> fate == Signed) && (Injective(p.fingerprint) && fate == Signed ==> system == bound)
  {}

  /**
    A reply whose digest includes a tail is never replayed: the next request no longer carries that
    tail, so on every extension the reply is sent without thinking, or skipped when it is only replay.
   */
  lemma ReplyUnderATailIsNeutral(p: Provider, request: Request, reply: Message, rest: seq<Message>)
    requires Encodable(p, request) && request.tail.Some? && Injective(p.fingerprint)
    requires Bound(p, reply, ReplayDigest(p, request, false))
    ensures FateAt(p, request.tools, request.messages + [reply] + rest, |request.messages|)
              == if reply.IsReplayOnly() then Skipped else Neutral
  {
    var messages := request.messages;
    var next := messages + [reply] + rest;
    assert next[..|messages|] == messages && next[|messages|] == reply;
    var canonical := Canonical(p, request.tools, messages);
    var tailed := Tailed(canonical, request.tail.value);
    var last := |canonical| - 1;
    assert |tailed[last].content| == |canonical[last].content| + 1;
  }

  /** A turn signed in two requests was judged against the same system, tools and earlier turns in both. */
  lemma SignedMeansSamePrefix(p: Provider, tools: seq<ToolSchema>, a: seq<Message>, i: nat, b: seq<Message>, j: nat)
    requires Injective(p.fingerprint)
    requires i < |a| && j < |b| && a[i].Assistant? && a[i] == b[j]
    requires FateAt(p, tools, a, i) == Signed && FateAt(p, tools, b, j) == Signed
    ensures SystemParts(a) == SystemParts(b) && CanonicalSystem(a) == CanonicalSystem(b)
    ensures Before(p, CanonicalSystem(a), tools, a[..i]) == Before(p, CanonicalSystem(b), tools, b[..j])
  {
    assert Prefix(CanonicalSystem(a), tools, Before(p, CanonicalSystem(a), tools, a[..i])) ==
           Prefix(CanonicalSystem(b), tools, Before(p, CanonicalSystem(b), tools, b[..j]));
    SystemIsItsParts(a, b);
  }

  // ---- cache continuity ------------------------------------------------------------------------------

  lemma {:induction false} SameLastIn(a: seq<Block>, b: seq<Block>, upto: nat)
    requires upto <= |a| && upto <= |b| && a[..upto] == b[..upto]
    ensures LastIn(a, upto) == LastIn(b, upto)
  {
    if upto != 0 {
      assert a[..upto][upto - 1] == b[..upto][upto - 1];
      assert a[..upto][..upto - 1] == a[..upto - 1] && b[..upto][..upto - 1] == b[..upto - 1];
      SameLastIn(a, b, upto - 1);
    }
  }

  /** A search sees only the earlier turns and the part of its own turn it is allowed. */
  lemma {:induction false} SameSearch(a: seq<Turn>, b: seq<Turn>, turn: nat, x: Option<nat>, y: Option<nat>)
    requires turn < |a| && turn < |b| && a[..turn] == b[..turn]
    requires a[turn].content[..Limit(a, turn, x)] == b[turn].content[..Limit(b, turn, y)]
    ensures LastCacheable(a, turn, x) == LastCacheable(b, turn, y)
    decreases turn
  {
    var upto := Limit(a, turn, x);
    assert |a[turn].content[..upto]| == upto && |b[turn].content[..Limit(b, turn, y)]| == Limit(b, turn, y);
    SameLastIn(a[turn].content, b[turn].content, upto);
    if 0 < turn {
      assert a[..turn][turn - 1] == b[..turn][turn - 1];
      assert a[..turn][..turn - 1] == a[..turn - 1] && b[..turn][..turn - 1] == b[..turn - 1];
      SameSearch(a, b, turn - 1, None, None);
    }
  }

  predicate AllUser(turns: seq<Turn>, from: nat) {
    forall k :: from <= k < |turns| ==> turns[k].role == FromUser
  }

  /** Results and user messages add only user turns. */
  lemma {:induction false} OnlyUserTurns(
      p: Provider, system: SystemValue, tools: seq<ToolSchema>, a: seq<Message>, b: seq<Message>)
    requires forall k :: 0 <= k < |b| ==> b[k].Tool? || b[k].User?
    ensures AllUser(Fold(p, system, tools, a + b).turns, |Fold(p, system, tools, a).turns|)
    ensures AllUser(Before(p, system, tools, a + b), |Fold(p, system, tools, a).turns|)
  {
    if b == [] {
      assert a + b == a;
    } else {
      assert a + b == a + b[..|b| - 1] + [b[|b| - 1]];
      FoldLast(p, system, tools, a + b[..|b| - 1], b[|b| - 1]);
      OnlyUserTurns(p, system, tools, a, b[..|b| - 1]);
    }
  }

  lemma {:induction false} LastAssistantIs(turns: seq<Turn>, at: nat)
    requires at < |turns| && turns[at].role == FromAssistant && AllUser(turns, at + 1)
    ensures LastAssistant(turns) == Some(at)
  {
    if at + 1 < |turns| {
      LastAssistantIs(turns[..|turns| - 1], at);
    }
  }

  /** The same, over turns: `b` is `a`, an assistant turn and then only user turns. */
  lemma TurnsContinue(a: seq<Turn>, s: Option<string>, b: seq<Turn>, t: Option<string>)
    requires a != [] && |a| < |b| && a == b[..|a|] && b[|a|].role == FromAssistant && AllUser(b, |a| + 1)
    requires (s.Some? ==> Tailable(a)) && (t.Some? ==> Tailable(b))
    ensures AnswerCandidate(Carried(b, t), t.Some?) == EndCandidate(Carried(a, s), s.Some?)
  {
    var x, y, last := Carried(a, s), Carried(b, t), |a| - 1;
    LastAssistantIs(y, |a|);
    assert x[..last] == a[..last] == b[..last] == y[..last];
    assert y[last] == b[last] == a[last];
    var end := if s.Some? then Some(Less(|x[last].content|, 1)) else None;
    assert x[last].content[..Limit(x, last, end)] == a[last].content == y[last].content[..Limit(y, last, None)];
    SameSearch(x, y, last, end, None);
  }

  /** What the next step's turns are, when the one reply between them was sent. */
  lemma NextTurns(p: Provider, tools: seq<ToolSchema>, messages: seq<Message>, reply: Message, more: seq<Message>)
    requires reply.Assistant? && forall k :: 0 <= k < |more| ==> more[k].Tool? || more[k].User?
    requires FateAt(p, tools, messages + [reply] + more, |messages|) != Skipped
    ensures var a, b := Canonical(p, tools, messages), Canonical(p, tools, messages + [reply] + more);
            |a| < |b| && a == b[..|a|] && b[|a|].role == FromAssistant && AllUser(b, |a| + 1)
  {
    var next := messages + [reply] + more;
    var system := CanonicalSystem(messages);
    NoSystemAdded(messages, reply, more);
    assert next[..|messages|] == messages;
    FoldLast(p, system, tools, messages, reply);
    FoldGrows(p, system, tools, messages + [reply], more);
    OnlyUserTurns(p, system, tools, messages + [reply], more);
  }

  /**
    A step's entry is found by the next step: when a request is followed by one more assistant turn
    and then results or user messages, the new request's "before the last answer" breakpoint is the
    very block the old one marked as its end, although the old one carried its tail after it.
   */
  lemma BreakpointsContinue(p: Provider, first: Request, reply: Message, more: seq<Message>, second: Request)
    requires Encodable(p, first) && Encodable(p, second) && reply.Assistant?
    requires second.messages == first.messages + [reply] + more && second.tools == first.tools
    requires forall k :: 0 <= k < |more| ==> more[k].Tool? || more[k].User?
    requires FateAt(p, second.tools, second.messages, |first.messages|) != Skipped
    ensures AnswerCandidate(Carried(Canonical(p, second.tools, second.messages), second.tail), second.tail.Some?)
              == EndCandidate(Carried(Canonical(p, first.tools, first.messages), first.tail), first.tail.Some?)
    ensures var turns := Carried(Canonical(p, first.tools, first.messages), first.tail);
            LastMarkable(turns, |turns| - 1, first.tail.Some?, EndCandidate(turns, first.tail.Some?))
  {
    var turns := Carried(Canonical(p, first.tools, first.messages), first.tail);
    CandidateIsLast(turns, |turns| - 1, first.tail.Some?);
    NextTurns(p, first.tools, first.messages, reply, more);
    TurnsContinue(Canonical(p, first.tools, first.messages), first.tail,
                  Canonical(p, second.tools, second.messages), second.tail);
  }

  lemma NoSystemAdded(messages: seq<Message>, reply: Message, more: seq<Message>)
    requires reply.Assistant? && forall k :: 0 <= k < |more| ==> more[k].Tool? || more[k].User?
    ensures CanonicalSystem(messages + [reply] + more) == CanonicalSystem(messages)
    decreases |more|
  {
    if more == [] {
      assert messages + [reply] + more == messages + [reply];
      assert (messages + [reply])[..|messages|] == messages;
    } else {
      var all := messages + [reply] + more;
      assert all[..|all| - 1] == messages + [reply] + more[..|more| - 1];
      NoSystemAdded(messages, reply, more[..|more| - 1]);
      assert SystemParts(all) == SystemParts(messages + [reply] + more[..|more| - 1]);
    }
  }
}
