/** What every streamed response has in common: its events, and the caller's budgets. */
module Stream {
  import opened Wrappers

  const U32_MAX: nat := 0xFFFF_FFFF
  const RECORD_BYTES_MAX: nat := 4 * 1024 * 1024
  const TOOL_NAME_MAX: nat := 64
  const OVERSIZED: string := "<tool arguments exceeded their byte limit and were dropped>"

  datatype Usage = Usage(prompt: nat, completion: nat, reasoning: nat, hit: nat, miss: nat)
  datatype Finish = Stop | ToolCalls | Length | ContentFilter | Unknown(reason: string)

  /** Why a stream reports an error. */
  datatype Trouble =
    | Provider(message: string)
    | Transport
    | Framing
    | Unterminated
    | NotJson
    | FrameTooLarge
    | BadIndex
    | TooManyBlocks
    | ReplayTooLarge
    | BlockNotAnObject
    | EarlyArguments
    | BadArguments
    | NoCallId
    | BadName
    | Unsigned
    | BadCall

  /** `B` is the block type a signed replay carries. */
  datatype Event<B> =
    | TextDelta(text: string)
    | ReasoningDelta(text: string)
    | CallDelta(index: nat, id: Option<string>, name: Option<string>, arguments: string)
    | AssistantReplay(blocks: seq<B>)
    | Spent(usage: Usage)
    | Error(why: Trouble)
    | Finished(reason: Finish)
  {
    predicate Terminal() {
      Error? || Finished?
    }
  }

  /** The response budgets a managed call is decoded under. */
  datatype Limits = Limits(eventBytes: nat, toolSlots: nat)

  /** The raw argument limit of a tool, when it has one: the first entry that names it. */
  function LimitFor(limits: seq<(string, nat)>, name: string): Option<nat> {
    if limits == [] then None
    else if limits[0].0 == name then Some(limits[0].1)
    else LimitFor(limits[1..], name)
  }

  /** A tool has the limit of the first entry that names it, and none exactly when no entry does. */
  lemma {:induction false} LimitIsTheFirst(limits: seq<(string, nat)>, name: string)
    ensures match LimitFor(limits, name)
            case Some(limit) =>
              exists k :: 0 <= k < |limits| && limits[k] == (name, limit)
                          && forall j :: 0 <= j < k ==> limits[j].0 != name
            case None => forall k :: 0 <= k < |limits| ==> limits[k].0 != name
  {
    if limits != [] && limits[0].0 != name {
      LimitIsTheFirst(limits[1..], name);
      assert forall k :: 1 <= k < |limits| ==> limits[k] == limits[1..][k - 1];
      if LimitFor(limits, name).Some? {
        var k :| 0 <= k < |limits| - 1 && limits[1..][k] == (name, LimitFor(limits, name).value)
                 && forall j :: 0 <= j < k ==> limits[1..][j].0 != name;
        assert limits[k + 1] == (name, LimitFor(limits, name).value);
      }
    }
  }

  /** A token count above what a `u32` holds reads as zero. */
  function Number(count: nat): nat {
    if count <= U32_MAX then count else 0
  }

  predicate ValidName(name: string) {
    && 0 < |name| <= TOOL_NAME_MAX
    && forall c <- name :: 'a' <= c <= 'z' || '0' <= c <= '9' || c == '_' || c == '-'
  }

  function Concat(fragments: seq<string>): string {
    if fragments == [] then "" else Concat(fragments[..|fragments| - 1]) + fragments[|fragments| - 1]
  }

  /** A limited call's arguments, judged as a whole. */
  function Judged(limit: nat, text: string): string {
    if limit < |text| then OVERSIZED else text
  }

  /** The argument text one event delivers for block `index`. */
  function ArgumentText<B>(event: Event<B>, index: nat): string {
    if event.CallDelta? && event.index == index then event.arguments else ""
  }

  /** The argument text delivered for block `index`. */
  function Delivered<B>(events: seq<Event<B>>, index: nat): string {
    if events == [] then ""
    else Delivered(events[..|events| - 1], index) + ArgumentText(events[|events| - 1], index)
  }

  /** One event more. */
  lemma DeliveredNext<B>(events: seq<Event<B>>, event: Event<B>, index: nat)
    ensures Delivered(events + [event], index) == Delivered(events, index) + ArgumentText(event, index)
  {
    assert (events + [event])[..|events|] == events;
  }

  lemma {:induction false} DeliveredJoins<B>(a: seq<Event<B>>, b: seq<Event<B>>, index: nat)
    ensures Delivered(a + b, index) == Delivered(a, index) + Delivered(b, index)
  {
    if b == [] {
      NothingMore(a);
      NothingMore(Delivered(a, index));
    } else {
      var b', last := b[..|b| - 1], b[|b| - 1];
      assert b == b' + [last];
      DeliveredJoins(a, b', index);
      Regrouped(a, b', [last]);
      DeliveredNext(a + b', last, index);
      DeliveredNext(b', last, index);
      Regrouped(Delivered(a, index), Delivered(b', index), ArgumentText(last, index));
    }
  }

  lemma DeliveredOne<B>(event: Event<B>, index: nat)
    ensures Delivered([event], index) == ArgumentText(event, index)
  {
    DeliveredNext([], event, index);
    NothingMore([event]);
    NothingMore(ArgumentText(event, index));
  }

  /** How many events end the stream. */
  function Endings<B>(events: seq<Event<B>>): nat {
    if events == [] then 0
    else Endings(events[..|events| - 1]) + if events[|events| - 1].Finished? then 1 else 0
  }

  lemma {:induction false} EndingsJoin<B>(a: seq<Event<B>>, b: seq<Event<B>>)
    ensures Endings(a + b) == Endings(a) + Endings(b)
  {
    if b == [] {
      assert a + b == a;
    } else {
      EndingsJoin(a, b[..|b| - 1]);
      assert (a + b)[..|a + b| - 1] == a + b[..|b| - 1];
    }
  }

  predicate NoneTerminal<B(==)>(events: seq<Event<B>>) {
    forall e <- events :: !e.Terminal()
  }

  /** Exactly one event is terminal, and it is the last. */
  predicate EndsOnce<B(==)>(events: seq<Event<B>>) {
    events != [] && events[|events| - 1].Terminal() && NoneTerminal(events[..|events| - 1])
  }
}
