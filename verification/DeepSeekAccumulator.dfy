/** The chat-completions accumulator as the adapter writes it. */
module DeepSeekAccumulator {
  import opened Wrappers
  import opened Stream
  import opened DeepSeekStream

  class StreamAccumulator {
    const policy: Policy
    var ready: seq<Told>
    var calls: seq<Partial>
    var usage: Option<Usage>
    var finish: Option<Finish>
    var closed: bool

    constructor (policy: Policy)
      ensures this.policy == policy && View() == FRESH
    {
      this.policy := policy;
      ready, calls, usage, finish, closed := [], [], None, None, false;
    }

    function View(): State
      reads this
    {
      State(ready, calls, usage, finish, closed)
    }

    method Fail(why: Trouble)
      modifies this
      ensures View() == old(View()).Fail(policy, why) && closed
    {
      if policy.limits.Some? {
        ready := [];
        calls := [];
        usage := None;
        finish := None;
      }
      ready := ready + [Error(why)];
      closed := true;
    }

    /** The head of the queue, if it has one, moves to the caller; the others stay in order. */
    method TakeReady() returns (event: Option<Told>)
      modifies this`ready
      ensures event.None? <==> old(ready) == []
      ensures event.Some? ==> old(ready) == [event.value] + ready
      ensures event.None? ==> ready == old(ready)
    {
      if ready == [] {
        return None;
      }
      event := Some(ready[0]);
      ready := ready[1..];
    }

    method ObserveLine(line: Line)
      modifies this
      ensures View() == DeepSeekStream.ObserveLine(policy, old(View()), line)
    {
      if policy.limits.Some? && closed {
        return;
      }
      match line {
        case Garbled =>
          if policy.limits.Some? {
            Fail(NotJson);
            return;
          }
          ready := ready + [Error(NotJson)];
        case Decoded(frame) => ObserveFrame(frame);
      }
    }

    method ObserveFrame(frame: Frame)
      modifies this
      ensures View() == Observe(policy, old(View()), frame)
    {
      if policy.limits.Some? {
        if closed {
          return;
        }
        if policy.limits.value.eventBytes < frame.size {
          Fail(FrameTooLarge);
          return;
        }
      }
      if frame.usage.Some? {
        usage := Some(DecodeUsage(frame.usage.value));
      }
      if frame.choice.None? {
        return;
      }
      ObserveChoice(frame.choice.value);
    }

    method ObserveChoice(choice: Choice)
      requires policy.limits.Some? ==> !closed
      modifies this
      ensures View() == DeepSeekStream.ObserveChoice(policy, old(View()), choice)
    {
      if choice.finish.Some? {
        finish := Some(DecodeFinish(choice.finish.value));
      }
      if choice.delta.None? {
        return;
      }
      var delta := choice.delta.value;
      if delta.reasoning.Some? && delta.reasoning.value != "" {
        ready := ready + [ReasoningDelta(delta.reasoning.value)];
      }
      if delta.content.Some? && delta.content.value != "" {
        ready := ready + [TextDelta(delta.content.value)];
      }
      ObserveCalls(delta.calls);
    }

    /** The call deltas of one frame; under response limits the first that fails ends it. */
    method ObserveCalls(parts: seq<CallPart>)
      requires policy.limits.Some? ==> !closed
      modifies this
      ensures View() == DeepSeekStream.ObserveCalls(policy, old(View()), parts)
    {
      ghost var before := View();
      var i := 0;
      while i < |parts|
        invariant i <= |parts| && View() == DeepSeekStream.ObserveCalls(policy, before, parts[..i])
        invariant policy.limits.Some? ==> !closed
      {
        ObserveToolCallDelta(parts[i]);
        assert parts[..i + 1][..i] == parts[..i];
        i := i + 1;
        if policy.limits.Some? && closed {
          ClosedIgnoresCalls(policy, before, parts, i);
          return;
        }
      }
      assert parts[..i] == parts;
    }

    /** One delta changes one slot, as the fold does, or fails the stream; the vector grows to reach it. */
    method ObserveToolCallDelta(part: CallPart)
      modifies this
      ensures View() == ObserveCall(policy, old(View()), part)
    {
      if policy.limits.Some? {
        var trouble := CallTrouble(policy.limits.value, calls, part);
        if trouble.Some? {
          Fail(trouble.value);
          return;
        }
      }
      var index := SlotIndex(part);
      ghost var before := View();
      while |calls| <= index
        invariant View() == before.(calls := Grown(before.calls, |calls|))
        invariant |before.calls| <= |calls| && (|calls| <= index + 1 || calls == before.calls)
        decreases index + 1 - |calls|
      {
        calls := calls + [EMPTY];
      }
      var slot := calls[index];
      slot := slot.(id := NonEmpty(part.id, slot.id));
      if part.body.None? {
        calls := calls[index := slot];
        return;
      }
      var f := part.body.value;
      assert slot.arguments + "" == slot.arguments;
      slot := slot.(name := NonEmpty(f.name, slot.name));
      if f.arguments.Some? && !slot.oversized {
        slot := slot.(arguments := slot.arguments + f.arguments.value);
      }
      var limit := LimitFor(policy.arguments, slot.name);
      var unnamedOver := policy.arguments != [] && slot.name == "" && RECORD_BYTES_MAX < |slot.arguments|;
      if unnamedOver || (limit.Some? && limit.value < |slot.arguments|) {
        slot := slot.(oversized := true, arguments := "");
      }
      calls := calls[index := slot];
    }

    /** Closes as the step does, and once: closing again changes nothing. */
    method Close()
      modifies this
      ensures View() == DeepSeekStream.Close(policy, old(View())) && closed
    {
      if closed {
        return;
      }
      if policy.limits.Some? && exists call <- calls :: Unusable(call) {
        Fail(BadCall);
        return;
      }
      closed := true;
      var taken, before := calls, ready;
      calls := [];
      for i := 0 to |taken|
        invariant ready == before + Reports(taken[..i])
        invariant closed && calls == [] && usage == old(usage) && finish == old(finish)
      {
        var call := taken[i];
        assert taken[..i + 1][..i] == taken[..i];
        if call.name == "" {
          continue;
        }
        if !ValidName(call.name) {
          ready := ready + [Error(BadName)];
          continue;
        }
        var arguments := if call.oversized then OVERSIZED else call.arguments;
        ready := ready + [CallDelta(i, Some(call.id), Some(call.name), arguments)];
      }
      assert taken[..|taken|] == taken;
      if usage.Some? {
        ready := ready + [Spent(usage.value)];
        usage := None;
      }
      ready := ready + [Finished(finish.Or(Stop, reason => reason))];
      finish := None;
    }
  }

  lemma {:induction false} ClosedIgnoresCalls(policy: Policy, s: State, parts: seq<CallPart>, from: nat)
    requires policy.limits.Some? && from <= |parts| && ObserveCalls(policy, s, parts[..from]).closed
    ensures ObserveCalls(policy, s, parts) == ObserveCalls(policy, s, parts[..from])
    decreases |parts|
  {
    if from == |parts| {
      assert parts[..from] == parts;
    } else {
      assert parts[..|parts| - 1][..from] == parts[..from];
      ClosedIgnoresCalls(policy, s, parts[..|parts| - 1], from);
    }
  }
}
