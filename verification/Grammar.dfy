/** The managed role grammar: which conversations a managed request may carry. */
module Grammar {
  import opened Wrappers
  import opened Messages
  import opened Encoder

  datatype Rule =
    | NoConversation | LateSystem | BadOpening | GeneratedLast | NoSuchCall | Unanswered | RepeatedId | BadEnding
  datatype Outcome = Accepted | Refused(rule: Rule)

  // ---- pairing, as one pass ------------------------------------------------------------------------

  predicate Fresh(ids: seq<string>, seen: set<string>) {
    Distinct(ids) && forall k :: 0 <= k < |ids| ==> ids[k] !in seen
  }

  function IdSet(ids: seq<string>): set<string> {
    set id | id in ids
  }

  /** One pass over a conversation, with the calls still to be answered as a multiset. */
  function ScanPairs(messages: seq<Message>, pending: multiset<string>, seen: set<string>): Outcome {
    if messages == [] then
      if pending == multiset{} then Accepted else Refused(Unanswered)
    else
      var message, rest := messages[0], messages[1..];
      if message.Tool? then
        if message.callId in pending then ScanPairs(rest, pending - multiset{message.callId}, seen)
        else Refused(NoSuchCall)
      else if pending != multiset{} then Refused(Unanswered)
      else
        var ids := CallIds(message.Calls());
        if Fresh(ids, seen) then ScanPairs(rest, multiset(ids), seen + IdSet(ids)) else Refused(RepeatedId)
  }

  /** Removes the element at `at` by moving the last one into its place. */
  method SwapRemove(pending: seq<string>, at: nat) returns (left: seq<string>)
    requires at < |pending|
    ensures multiset(left) == multiset(pending) - multiset{pending[at]}
  {
    var last := |pending| - 1;
    left := pending[at := pending[last]][..last];
    assert pending == pending[..last] + [pending[last]];
    assert pending[at := pending[last]] == left + [pending[last]];
  }

  lemma {:induction false} CallIdsAt(calls: seq<Call>)
    ensures |CallIds(calls)| == |calls|
    ensures forall k :: 0 <= k < |calls| ==> CallIds(calls)[k] == calls[k].id
  {
    if calls != [] {
      CallIdsAt(calls[1..]);
    }
  }

  /** Takes in one message's calls, unless an id repeats. */
  method EnterCalls(calls: seq<Call>, before: set<string>) returns (ok: bool, pending: seq<string>, seen: set<string>)
    ensures ok <==> Fresh(CallIds(calls), before)
    ensures ok ==> pending == CallIds(calls) && seen == before + IdSet(CallIds(calls))
  {
    CallIdsAt(calls);
    ghost var ids := CallIds(calls);
    ok, pending, seen := true, [], before;
    for k := 0 to |calls|
      invariant pending == ids[..k] && seen == before + IdSet(ids[..k]) && Fresh(ids[..k], before)
    {
      if calls[k].id in seen {
        assert calls[k].id == ids[k];
        return false, pending, seen;
      }
      assert ids[..k + 1] == ids[..k] + [ids[k]];
      pending := pending + [calls[k].id];
      seen := seen + {calls[k].id};
    }
    assert ids[..|calls|] == ids;
  }

  /** Every call is answered once, in place; the order in which pending calls are kept does not show. */
  method ValidatePairs(conversation: seq<Message>) returns (outcome: Outcome)
    ensures outcome == ScanPairs(conversation, multiset{}, {})
  {
    var pending: seq<string> := [];
    var seen: set<string> := {};
    for i := 0 to |conversation|
      invariant ScanPairs(conversation, multiset{}, {}) == ScanPairs(conversation[i..], multiset(pending), seen)
    {
      var message := conversation[i];
      assert conversation[i..][1..] == conversation[i + 1..];
      if message.Tool? {
        var at := 0;
        while at < |pending| && pending[at] != message.callId
          invariant at <= |pending| && message.callId !in pending[..at]
        {
          at := at + 1;
        }
        if at == |pending| {
          assert pending[..at] == pending;
          return Refused(NoSuchCall);
        }
        pending := SwapRemove(pending, at);
        continue;
      }
      if pending != [] {
        assert pending[0] in multiset(pending);
        return Refused(Unanswered);
      }
      var ok;
      ok, pending, seen := EnterCalls(message.Calls(), seen);
      if !ok {
        return Refused(RepeatedId);
      }
    }
    assert conversation[|conversation|..] == [];
    if pending != [] {
      assert pending[0] in multiset(pending);
      return Refused(Unanswered);
    }
    return Accepted;
  }

  // ---- pairing, as a shape -------------------------------------------------------------------------

  predicate AreResults(run: seq<Message>) {
    forall k :: 0 <= k < |run| ==> run[k].Tool?
  }

  function Answers(run: seq<Message>): seq<string> {
    if run == [] then [] else (if run[0].Tool? then [run[0].callId] else []) + Answers(run[1..])
  }

  /**
    A conversation in groups: each message that is not a result is followed at once by a run of
    results that is a permutation of its calls, and there is no other result.
   */
  predicate Paired(messages: seq<Message>)
    decreases |messages|, 0
  {
    messages == [] ||
    (!messages[0].Tool? && Answered(messages[1..], multiset(CallIds(messages[0].Calls()))))
  }

  /** The first results answer exactly `pending`; the rest is paired. */
  predicate Answered(messages: seq<Message>, pending: multiset<string>)
    decreases |messages|, 1
  {
    var n := |pending|;
    n <= |messages| && AreResults(messages[..n]) && multiset(Answers(messages[..n])) == pending && Paired(messages[n..])
  }

  function AllCallIds(messages: seq<Message>): seq<string> {
    if messages == [] then [] else CallIds(messages[0].Calls()) + AllCallIds(messages[1..])
  }

  lemma {:induction false} ScanIsShape(messages: seq<Message>, pending: multiset<string>, seen: set<string>)
    ensures ScanPairs(messages, pending, seen) == Accepted <==>
              Answered(messages, pending) && Fresh(AllCallIds(messages), seen)
  {
    if messages == [] {
      assert messages[..0] == [] && (|pending| == 0 <==> pending == multiset{});
    } else {
      var message, rest := messages[0], messages[1..];
      var ids, later := CallIds(message.Calls()), AllCallIds(rest);
      if message.Tool? {
        ToolHead(messages, pending);
        if message.callId in pending {
          ScanIsShape(rest, pending - multiset{message.callId}, seen);
        }
        assert AllCallIds(messages) == later;
      } else if pending != multiset{} {
        assert 0 < |pending|;
        assert |pending| <= |messages| ==> !messages[..|pending|][0].Tool?;
      } else {
        assert messages[..0] == [] && messages[0..] == messages;
        ScanIsShape(rest, multiset(ids), seen + IdSet(ids));
        FreshSplits(ids, later, seen);
      }
    }
  }

  lemma FreshSplits(ids: seq<string>, later: seq<string>, seen: set<string>)
    ensures Fresh(ids + later, seen) <==> Fresh(ids, seen) && Fresh(later, seen + IdSet(ids))
  {
    var all := ids + later;
    if Fresh(all, seen) {
      assert forall k :: 0 <= k < |ids| ==> ids[k] == all[k];
      assert forall k :: 0 <= k < |later| ==> later[k] == all[|ids| + k];
    }
    if Fresh(ids, seen) && Fresh(later, seen + IdSet(ids)) {
      forall i, j | 0 <= i < j < |all|
        ensures all[i] != all[j]
      {
        if i < |ids| <= j {
          assert ids[i] in IdSet(ids);
        }
      }
    }
  }

  lemma TakeOne(id: string, rest: multiset<string>, pending: multiset<string>)
    ensures multiset{id} + rest == pending <==> id in pending && rest == pending - multiset{id}
  {}

  lemma RunHead(run: seq<Message>)
    requires run != [] && run[0].Tool?
    ensures multiset(Answers(run)) == multiset{run[0].callId} + multiset(Answers(run[1..]))
    ensures AreResults(run) <==> AreResults(run[1..])
  {
    assert Answers(run) == [run[0].callId] + Answers(run[1..]);
    assert forall k :: 0 <= k < |run| - 1 ==> run[k + 1] == run[1..][k];
  }

  lemma RunTakesOne(run: seq<Message>, pending: multiset<string>)
    requires run != [] && run[0].Tool?
    ensures AreResults(run) && multiset(Answers(run)) == pending <==>
              && AreResults(run[1..]) && run[0].callId in pending
              && multiset(Answers(run[1..])) == pending - multiset{run[0].callId}
  {
    RunHead(run);
    TakeOne(run[0].callId, multiset(Answers(run[1..])), pending);
  }

  lemma ToolHead(messages: seq<Message>, pending: multiset<string>)
    requires messages != [] && messages[0].Tool?
    ensures Answered(messages, pending) <==>
              messages[0].callId in pending && Answered(messages[1..], pending - multiset{messages[0].callId})
  {
    var id, rest, n := messages[0].callId, messages[1..], |pending|;
    if n == 0 {
      assert messages[0..] == messages;
      NoneInEmpty(id, pending);
    } else if n <= |messages| {
      RunTakesOne(messages[..n], pending);
      if id in pending {
        OneFewer(id, pending);
        Shifted(messages, n);
      }
    } else if id in pending {
      OneFewer(id, pending);
    }
  }

  lemma NoneInEmpty(id: string, pending: multiset<string>)
    requires |pending| == 0
    ensures id !in pending
  {}

  lemma OneFewer(id: string, pending: multiset<string>)
    requires id in pending
    ensures |pending - multiset{id}| == |pending| - 1
  {}

  lemma Shifted(messages: seq<Message>, n: nat)
    requires 1 <= n <= |messages|
    ensures messages[..n][1..] == messages[1..][..n - 1] && messages[n..] == messages[1..][n - 1..]
  {}

  /**
    Pairing is sound and complete: it accepts exactly the conversations whose call ids are all
    distinct and in which each message's calls are answered at once by a permutation of them.
   */
  lemma PairsExactly(messages: seq<Message>)
    ensures ScanPairs(messages, multiset{}, {}) == Accepted <==> Paired(messages) && Distinct(AllCallIds(messages))
  {
    ScanIsShape(messages, multiset{}, {});
    assert messages[..0] == [] && messages[0..] == messages;
  }

  // ---- the whole grammar ---------------------------------------------------------------------------

  function ValidateSequence(messages: seq<Message>): Outcome {
    var conversation := SkipSystem(messages);
    if conversation == [] then Refused(NoConversation)
    else if exists k :: 0 <= k < |conversation| && conversation[k].System? then Refused(LateSystem)
    else if !conversation[0].User? then Refused(BadOpening)
    else if 1 < |conversation| && IsGenerated(conversation[1]) && |conversation| <= 2 then Refused(GeneratedLast)
    else
      var pairs := ScanPairs(conversation, multiset{}, {});
      if pairs.Refused? then pairs
      else
        var last := conversation[|conversation| - 1];
        if last.User? || last.Tool? then Accepted else Refused(BadEnding)
  }

  /** What a managed conversation is, rule by rule. */
  predicate WellFormed(conversation: seq<Message>) {
    && conversation != [] && conversation[0].User?
    && (forall k :: 0 <= k < |conversation| ==> !conversation[k].System?)
    && Paired(conversation) && Distinct(AllCallIds(conversation))
    && (conversation[|conversation| - 1].User? || conversation[|conversation| - 1].Tool?)
  }

  /**
    The grammar accepts exactly the well-formed conversations. Its rule that generated data is never
    last refuses nothing the ending rule would not: it only names the fault better.
   */
  lemma GrammarExactly(messages: seq<Message>)
    ensures ValidateSequence(messages) == Accepted <==> WellFormed(SkipSystem(messages))
  {
    PairsExactly(SkipSystem(messages));
  }
}
