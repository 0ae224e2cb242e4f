/** The stream accumulator as the adapter writes it: fields updated frame by frame. */
module AnthropicAccumulator {
  import opened Wrappers
  import opened Stream
  import opened AnthropicStream

  class StreamAccumulator {
    const policy: Policy
    var ready: seq<Event<Stored>>
    var inputTokens: nat
    var cacheReadTokens: nat
    var cacheCreationTokens: nat
    var outputTokens: nat
    var finish: Option<Finish>
    var closed: bool
    var replayBlocks: map<nat, Stored>
    var replayArguments: map<nat, string>
    var replayBytes: nat
    var openCalls: set<nat>
    var limited: map<nat, Held>
    var replayVoid: bool

    constructor (policy: Policy)
      ensures this.policy == policy && View() == FRESH
    {
      this.policy := policy;
      ready, finish, closed := [], None, false;
      inputTokens, cacheReadTokens, cacheCreationTokens, outputTokens := 0, 0, 0, 0;
      replayBlocks, replayArguments, replayBytes := map[], map[], 0;
      openCalls, limited, replayVoid := {}, map[], false;
    }

    function View(): State
      reads this
    {
      State(ready, Counts(inputTokens, cacheReadTokens, cacheCreationTokens, outputTokens), finish, closed,
            replayBlocks, replayArguments, replayBytes, openCalls, limited, replayVoid)
    }

    /** The head of the queue, if it has one, moves to the caller; the others stay in order. */
    method TakeReady() returns (event: Option<Event<Stored>>)
      modifies this`ready
      ensures event.None? <==> old(ready) == []
      ensures event.Some? ==> old(ready) == [event.value] + ready
      ensures event.None? ==> ready == old(ready)
    {
      if ready == [] {
        return None;
      }
      event := Some(ready[0]);
      ready := ready[1..];
    }

    /** Fails as the step does: closed in any case, and under response limits with nothing else left. */
    method Fail(why: Trouble)
      modifies this
      ensures View() == old(View()).Fail(policy, why) && closed
    {
      if policy.limits.Some? {
        ready := [];
        replayBlocks := map[];
        replayArguments := map[];
        finish := None;
      }
      ready := ready + [Error(why)];
      closed := true;
    }

    method ObserveLine(line: Line)
      modifies this
      ensures View() == AnthropicStream.ObserveLine(policy, old(View()), line)
    {
      if policy.limits.Some? && closed {
        return;
      }
      match line {
        case Garbled =>
          if policy.limits.Some? {
            Fail(NotJson);
            return;
          }
          ready := ready + [Error(NotJson)];
        case Decoded(frame) => ObserveFrame(frame);
      }
    }

    method ObserveFrame(frame: Frame)
      modifies this
      ensures View() == Observe(policy, old(View()), frame)
    {
      if policy.limits.Some? {
        if closed {
          return;
        }
        if policy.limits.value.eventBytes < frame.size {
          Fail(FrameTooLarge);
          return;
        }
      }
      if policy.limits.Some? {
        var trouble := ReplayTrouble(policy.limits.value, View(), frame);
        if trouble.Some? {
          Fail(trouble.value);
          return;
        }
      }
      if policy.arguments != [] {
        LimitFrame(frame);
        if closed {
          return;
        }
      }
      ObserveReplay(frame);
      if closed {
        return;
      }
      var index := frame.Slot();
      match frame.body {
        case MessageStart(Some(usage)) => ObserveMessageStart(usage);
        case BlockStart(Some(Opened(block, _))) => ObserveBlockStart(index, block);
        case BlockDelta(Some(delta)) => ObserveBlockDelta(index, delta);
        case MessageDelta(output, stop) => ObserveMessageDelta(output, stop);
        case BlockStop => ReleaseLimited(index);
        case MessageStop => Close();
        case ErrorFrame(message) => Fail(Provider(message));
        case _ =>
      }
    }

    method LimitFrame(frame: Frame)
      modifies this
      ensures View() == AnthropicStream.LimitFrame(policy, old(View()), frame)
    {
      var index := frame.Slot();
      if frame.OpensCall() {
        openCalls := openCalls + {index};
        var limit := policy.CallLimit(frame.body.opening.value.block);
        if limit.Some? {
          limited := limited[index := Held(limit.value, "", false)];
        }
      } else if frame.AddsArguments() {
        if index !in openCalls {
          Fail(EarlyArguments);
          return;
        }
        if index !in limited || limited[index].oversized {
          return;
        }
        var call := limited[index];
        call := call.(raw := call.raw + frame.Added());
        if call.limit < |call.raw| {
          call := call.(oversized := true, raw := "");
          replayArguments := replayArguments - {index};
          replayVoid := true;
        }
        limited := limited[index := call];
      }
    }

    method ObserveReplay(frame: Frame)
      modifies this
      ensures View() == AnthropicStream.ObserveReplay(policy, old(View()), frame)
    {
      var index := frame.Slot();
      match frame.body {
        case BlockStart(Some(opening)) =>
          if opening.NotAnObject? {
            Fail(BlockNotAnObject);
            return;
          }
          if BLOCKS_MAX <= |replayBlocks| {
            Fail(TooManyBlocks);
            return;
          }
          if RECORD_BYTES_MAX < opening.size {
            Fail(ReplayTooLarge);
            return;
          }
          replayBytes := replayBytes + opening.size;
          if RECORD_BYTES_MAX < replayBytes {
            Fail(ReplayTooLarge);
            return;
          }
          replayBlocks := replayBlocks[index := opening.block];
        case BlockDelta(Some(delta)) => AbsorbReplayDelta(index, delta);
        case BlockStop =>
          SealBlock(index);
        case _ =>
      }
      if RECORD_BYTES_MAX < replayBytes {
        Fail(ReplayTooLarge);
      }
    }

    method SealBlock(index: nat)
      modifies this
      ensures View() == AnthropicStream.SealBlock(policy, old(View()), index)
    {
      if index in replayArguments {
        var input := policy.Input(replayArguments[index]);
        replayArguments := replayArguments - {index};
        if input.None? {
          Fail(BadArguments);
        } else if index in replayBlocks {
          replayBlocks := replayBlocks[index := replayBlocks[index].(input := input)];
        }
      }
    }

    method AbsorbReplayDelta(index: nat, delta: Delta)
      modifies this
      ensures View() == AbsorbDelta(policy, old(View()), index, delta)
    {
      if delta.OtherDelta? || delta.text.None? {
        return;
      }
      var fragment := delta.text.value;
      replayBytes := replayBytes + |fragment|;
      if RECORD_BYTES_MAX < replayBytes {
        Fail(ReplayTooLarge);
        return;
      }
      if delta.field == PartialJson && index in limited && limited[index].oversized {
        return;
      }
      if delta.field == PartialJson {
        var raw := if index in replayArguments then replayArguments[index] else "";
        replayArguments := replayArguments[index := raw + fragment];
      } else if index in replayBlocks {
        replayBlocks := replayBlocks[index := replayBlocks[index].Append(delta.field, fragment)];
      }
    }

    method ReleaseLimited(index: nat)
      modifies this`limited, this`ready
      ensures View() == Release(old(View()), index)
    {
      if index !in limited {
        return;
      }
      var call := limited[index];
      limited := limited - {index};
      ready := ready + [CallDelta(index, None, None, if call.oversized then OVERSIZED else call.raw)];
    }

    method ObserveMessageStart(usage: Counts)
      modifies this
      ensures View() == old(View()).(tokens := Raise(old(View()).tokens, usage))
    {
      inputTokens := Larger(inputTokens, Number(usage.input));
      cacheReadTokens := Larger(cacheReadTokens, Number(usage.read));
      cacheCreationTokens := Larger(cacheCreationTokens, Number(usage.creation));
      outputTokens := Larger(outputTokens, Number(usage.output));
    }

    method ObserveBlockStart(index: nat, block: Stored)
      modifies this
      ensures View() == ObserveStart(policy, old(View()), index, block)
    {
      match block.kind {
        case ToolUseBlock => OpenToolUse(index, block);
        case TextBlock =>
          if block.text.Some? && block.text.value != "" {
            ready := ready + [TextDelta(block.text.value)];
          }
        case ThinkingBlock =>
          if block.thinking.Some? && block.thinking.value != "" {
            ready := ready + [ReasoningDelta(block.thinking.value)];
          }
        case _ =>
      }
    }

    method OpenToolUse(index: nat, block: Stored)
      modifies this
      ensures View() == AnthropicStream.OpenToolUse(policy, old(View()), index, block)
    {
      if block.id == "" {
        if policy.limits.Some? {
          Fail(NoCallId);
          return;
        }
        ready := ready + [Error(NoCallId)];
        return;
      }
      if block.name.None? || !ValidName(block.name.value) {
        if policy.limits.Some? {
          Fail(BadName);
          return;
        }
        ready := ready + [Error(BadName)];
        return;
      }
      ready := ready + [CallDelta(index, Some(block.id), block.name, "")];
    }

    method ObserveBlockDelta(index: nat, delta: Delta)
      modifies this
      ensures View() == ObserveDelta(old(View()), index, delta)
    {
      if delta.OtherDelta? || delta.text.None? {
        return;
      }
      var fragment := delta.text.value;
      match delta.field {
        case TextField =>
          if fragment != "" {
            ready := ready + [TextDelta(fragment)];
          }
        case ThinkingField =>
          if fragment != "" {
            ready := ready + [ReasoningDelta(fragment)];
          }
        case PartialJson =>
          if index in limited {
            return;
          }
          ready := ready + [CallDelta(index, None, None, fragment)];
        case SignatureField =>
      }
    }

    method ObserveMessageDelta(output: Option<nat>, stop: Option<string>)
      modifies this
      ensures View() == ObserveTail(old(View()), output, stop)
    {
      if output.Some? {
        outputTokens := Larger(outputTokens, Number(output.value));
      }
      if stop.Some? {
        finish := Some(DecodeStop(stop.value));
      }
    }

    /** Releases every call still held, in index order. */
    method ReleaseHeld()
      modifies this`limited, this`ready
      ensures View() == ReleaseBelow(old(View()), U32_MAX + 1)
    {
      ghost var before := View();
      var held := OrderedKeys(limited);
      SkipHeld(before, held, 0);
      for i := 0 to |held|
        invariant View() == ReleaseBelow(before, KeyAt(held, i))
      {
        ReleaseLimited(held[i]);
        SkipHeld(before, held, i + 1);
      }
    }

    /** Closes as the step does, and once: closing again changes nothing. */
    method Close()
      modifies this
      ensures View() == AnthropicStream.Close(policy, old(View())) && closed
    {
      if closed {
        return;
      }
      ghost var before := View();
      ReleaseHeld();
      ReleaseKeeps(before, U32_MAX + 1);
      closed := true;
      var blocks := ValuesInOrder(replayBlocks);
      replayBlocks := map[];
      Deliver(blocks);
    }

    /** The signed replay of `blocks`, when there is one to give, and the end. */
    method Deliver(blocks: seq<Stored>)
      requires closed
      modifies this
      ensures View() == AnthropicStream.Deliver(policy, old(View()), blocks) && closed
    {
      if !replayVoid && HasThinking(blocks) {
        if HasUnsigned(blocks) {
          Fail(Unsigned);
          return;
        }
        if policy.limits.Some? && policy.limits.value.eventBytes < policy.replaySize(blocks) {
          Fail(ReplayTooLarge);
          return;
        }
        ready := ready + [AssistantReplay(blocks)];
      }
      Conclude();
    }

    /** The accounting and the end. */
    method Conclude()
      modifies this`ready, this`finish
      ensures View() == AnthropicStream.Conclude(old(View()))
    {
      var usage := Accounting(View().tokens);
      if 0 < Saturated(usage.prompt, usage.completion) {
        ready := ready + [Spent(usage)];
      }
      ready := ready + [Finished(finish.Or(Stop, reason => reason))];
      finish := None;
    }
  }

  // ---- maps in key order ---------------------------------------------------------------------------

  /** The keys of a map as a sorted map would give them; every key is a `u32`. */
  method OrderedKeys<V>(values: map<nat, V>) returns (keys: seq<nat>)
    ensures Orders(keys, values.Keys)
  {
    keys := [];
    var rest := set key | key in values.Keys && key <= U32_MAX;
    while rest != {}
      invariant rest <= values.Keys
      invariant forall key :: key in values.Keys && key <= U32_MAX <==> key in rest || key in keys
      invariant forall i, j :: 0 <= i < j < |keys| ==> keys[i] < keys[j]
      invariant forall key, other | key in keys && other in rest :: key < other
      decreases |rest|
    {
      HasLeast(rest);
      var least :| least in rest && Least(least, rest);
      assert forall i | 0 <= i < |keys| :: keys[i] in keys;
      rest := rest - {least};
      keys := keys + [least];
    }
  }

  /** The values of a map in key order. */
  method ValuesInOrder(blocks: map<nat, Stored>) returns (values: seq<Stored>)
    ensures values == ValuesBelow(blocks, U32_MAX + 1)
  {
    var keys := OrderedKeys(blocks);
    values := [];
    SkipValues(blocks, keys, 0);
    for i := 0 to |keys|
      invariant values == ValuesBelow(blocks, KeyAt(keys, i))
    {
      values := values + [blocks[keys[i]]];
      SkipValues(blocks, keys, i + 1);
    }
  }

  /** `keys` is the `u32`s of `all`, increasing. */
  ghost predicate Orders(keys: seq<nat>, all: set<nat>) {
    && (forall i, j :: 0 <= i < j < |keys| ==> keys[i] < keys[j])
    && (forall key :: key in keys <==> key in all && key <= U32_MAX)
  }

  /** The key at `i`, and past the last one the end of the range. */
  function KeyAt(keys: seq<nat>, i: nat): nat {
    if i < |keys| then keys[i] else U32_MAX + 1
  }

  /** Where the search for the key at `i` goes on: after the one before it. */
  function After(keys: seq<nat>, i: nat): nat
    requires i <= |keys|
  {
    if i == 0 then 0 else keys[i - 1] + 1
  }

  predicate Least(key: nat, keys: set<nat>) {
    key in keys && forall other <- keys :: key <= other
  }

  lemma {:induction false} HasLeast(keys: set<nat>)
    requires keys != {}
    ensures exists least :: Least(least, keys)
    decreases keys
  {
    var key :| key in keys;
    var rest := keys - {key};
    assert keys == rest + {key};
    if rest == {} {
      assert Least(key, keys);
    } else {
      HasLeast(rest);
      var least :| Least(least, rest);
      assert Least(if key < least then key else least, keys);
    }
  }

  /** Between one key and the next there is none. */
  lemma Gap(keys: seq<nat>, all: set<nat>, i: nat)
    requires Orders(keys, all) && i <= |keys|
    ensures After(keys, i) <= KeyAt(keys, i) <= U32_MAX + 1
    ensures forall key | After(keys, i) <= key < KeyAt(keys, i) :: key !in all
  {
    if i < |keys| {
      assert keys[i] in keys;
    }
    if 0 < i {
      assert keys[i - 1] in keys;
    }
  }

  lemma {:induction false} NothingHeldBetween(s: State, from: nat, end: nat)
    requires from <= end && forall key | from <= key < end :: key !in s.held
    ensures ReleaseBelow(s, end) == ReleaseBelow(s, from)
    decreases end
  {
    if from < end {
      NothingHeldBetween(s, from, end - 1);
      ReleasedOnly(s, from);
    }
  }

  lemma {:induction false} ReleasedOnly(s: State, end: nat)
    ensures ReleaseBelow(s, end).held.Keys <= s.held.Keys
  {
    if end != 0 {
      ReleasedOnly(s, end - 1);
    }
  }

  lemma SkipHeld(s: State, keys: seq<nat>, i: nat)
    requires Orders(keys, s.held.Keys) && i <= |keys|
    ensures ReleaseBelow(s, KeyAt(keys, i)) == ReleaseBelow(s, After(keys, i))
  {
    Gap(keys, s.held.Keys, i);
    NothingHeldBetween(s, After(keys, i), KeyAt(keys, i));
  }

  lemma {:induction false} NoValuesBetween(blocks: map<nat, Stored>, from: nat, end: nat)
    requires from <= end && forall key | from <= key < end :: key !in blocks
    ensures ValuesBelow(blocks, end) == ValuesBelow(blocks, from)
    decreases end
  {
    if from < end {
      NoValuesBetween(blocks, from, end - 1);
    }
  }

  lemma SkipValues(blocks: map<nat, Stored>, keys: seq<nat>, i: nat)
    requires Orders(keys, blocks.Keys) && i <= |keys|
    ensures ValuesBelow(blocks, KeyAt(keys, i)) == ValuesBelow(blocks, After(keys, i))
  {
    Gap(keys, blocks.Keys, i);
    NoValuesBetween(blocks, After(keys, i), KeyAt(keys, i));
  }

  /** Releasing calls changes nothing but the calls and the queue. */
  lemma {:induction false} ReleaseKeeps(s: State, end: nat)
    ensures ReleaseBelow(s, end) == s.(held := ReleaseBelow(s, end).held, ready := ReleaseBelow(s, end).ready)
  {
    if end != 0 {
      ReleaseKeeps(s, end - 1);
    }
  }
}
