/** What an edit of a conversation does to the assistant turns that were sent signed. */
module Edits {
  import opened Wrappers
  import opened Messages
  import opened Encoder
  import opened EncoderProofs

  predicate MakesATurn(message: Message) {
    message.User? || message.Assistant?
  }

  /** One message for another of its kind: a tool result for a result, a user or assistant message for one of those. */
  predicate Editable(old': Message, new': Message) {
    (old'.Tool? && new'.Tool?) || (MakesATurn(old') && MakesATurn(new'))
  }

  /** Sent after `before`, the two messages become the same. */
  predicate Alike(
      p: Provider, system: SystemValue, tools: seq<ToolSchema>, before: seq<Message>, old': Message, new': Message)
    requires Editable(old', new')
  {
    if old'.Tool? then ResultBlock(old') == ResultBlock(new')
    else Emitted(p, system, tools, before, old') == Emitted(p, system, tools, before, new')
  }

  /** Sent after `before`, the two messages become turns, and different ones. */
  predicate TurnsDiffer(
      p: Provider, system: SystemValue, tools: seq<ToolSchema>, before: seq<Message>, old': Message,
      new': Message) {
    && MakesATurn(old') && MakesATurn(new')
    && Emitted(p, system, tools, before, old').Some? && Emitted(p, system, tools, before, new').Some?
    && Emitted(p, system, tools, before, old') != Emitted(p, system, tools, before, new')
  }

  // ---- the places of an edit ---------------------------------------------------------------------------

  lemma CutAfter(before: seq<Message>, mid: seq<Message>, after: seq<Message>, at: nat)
    requires at < |after|
    ensures (before + mid + after)[..|before + mid| + at] == before + mid + after[..at]
    ensures |before + mid| + at < |before + mid + after|
    ensures (before + mid + after)[|before + mid| + at] == after[at]
  {
    var all := before + mid + after;
    assert all[..|before + mid| + at] == before + mid + after[..at];
  }

  lemma CutShort(before: seq<Message>, after: seq<Message>, at: nat)
    requires at < |after|
    ensures (before + after)[..|before| + at] == before + after[..at]
    ensures |before| + at < |before + after| && (before + after)[|before| + at] == after[at]
  {
    assert (before + after)[..|before| + at] == before + after[..at];
  }

  lemma CutBefore(before: seq<Message>, mid: seq<Message>, after: seq<Message>, i: nat)
    requires i < |before|
    ensures (before + mid + after)[..i] == before[..i] && (before + mid + after)[i] == before[i]
  {
    Regrouped(before, mid, after);
  }

  lemma FoldEnd(p: Provider, system: SystemValue, tools: seq<ToolSchema>, a: seq<Message>, b: seq<Message>)
    requires b != []
    ensures Fold(p, system, tools, a + b) == Add(p, system, tools, Fold(p, system, tools, a + b[..|b| - 1]), b[|b| - 1])
  {
    Regrouped(a, b[..|b| - 1], [b[|b| - 1]]);
    assert b == b[..|b| - 1] + [b[|b| - 1]];
    FoldLast(p, system, tools, a + b[..|b| - 1], b[|b| - 1]);
  }

  lemma NoSystemInAnEdit(before: seq<Message>, old': Message, new': Message, after: seq<Message>)
    requires Editable(old', new')
    ensures CanonicalSystem(before + [old'] + after) == CanonicalSystem(before + [new'] + after)
  {
    SystemPartsConcat(before + [old'], after);
    SystemPartsConcat(before + [new'], after);
    SystemPartsConcat(before, [old']);
    SystemPartsConcat(before, [new']);
  }

  /** The turns before an edit are judged as they were. */
  lemma FateBefore(
      p: Provider, tools: seq<ToolSchema>, before: seq<Message>, mid: seq<Message>, mid': seq<Message>,
      after: seq<Message>, i: nat)
    requires i < |before| && before[i].Assistant?
    requires CanonicalSystem(before + mid + after) == CanonicalSystem(before + mid' + after)
    ensures (before + mid + after)[i] == before[i] == (before + mid' + after)[i]
    ensures FateAt(p, tools, before + mid + after, i) == FateAt(p, tools, before + mid' + after, i)
  {
    CutBefore(before, mid, after, i);
    CutBefore(before, mid', after, i);
  }

  // ---- what tells two conversations apart --------------------------------------------------------------

  /** A turn that was signed is not signed after other turns. */
  lemma OtherTurnsUnsign(p: Provider, tools: seq<ToolSchema>, a: seq<Message>, i: nat, b: seq<Message>, j: nat)
    requires Injective(p.fingerprint)
    requires i < |a| && j < |b| && a[i].Assistant? && a[i] == b[j] && FateAt(p, tools, a, i) == Signed
    requires Before(p, CanonicalSystem(a), tools, a[..i]) != Before(p, CanonicalSystem(a), tools, b[..j])
    ensures FateAt(p, tools, b, j) != Signed
  {
    if FateAt(p, tools, b, j) == Signed {
      SignedMeansSamePrefix(p, tools, a, i, b, j);
    }
  }

  /** The same turns and the same gathered results, whatever was skipped on the way. */
  predicate SameBody(x: Draft, y: Draft) {
    x.turns == y.turns && x.results == y.results
  }

  lemma {:induction false} SameBodyStays(
      p: Provider, system: SystemValue, tools: seq<ToolSchema>, a: seq<Message>, b: seq<Message>, after: seq<Message>)
    requires SameBody(Fold(p, system, tools, a), Fold(p, system, tools, b))
    ensures SameBody(Fold(p, system, tools, a + after), Fold(p, system, tools, b + after))
    decreases |after|
  {
    if after == [] {
      NothingMore(a);
      NothingMore(b);
    } else {
      SameBodyStays(p, system, tools, a, b, after[..|after| - 1]);
      FoldEnd(p, system, tools, a, after);
      FoldEnd(p, system, tools, b, after);
    }
  }

  lemma AlikeBodies(
      p: Provider, system: SystemValue, tools: seq<ToolSchema>, before: seq<Message>, old': Message, new': Message,
      after: seq<Message>)
    requires Editable(old', new') && Alike(p, system, tools, before, old', new')
    ensures SameBody(Fold(p, system, tools, before + [old'] + after), Fold(p, system, tools, before + [new'] + after))
  {
    AlikeAtOnce(p, system, tools, before, old', new');
    SameBodyStays(p, system, tools, before + [old'], before + [new'], after);
  }

  lemma AlikeAtOnce(
      p: Provider, system: SystemValue, tools: seq<ToolSchema>, before: seq<Message>, old': Message, new': Message)
    requires Editable(old', new') && Alike(p, system, tools, before, old', new')
    ensures SameBody(Fold(p, system, tools, before + [old']), Fold(p, system, tools, before + [new']))
  {
    FoldLast(p, system, tools, before, old');
    FoldLast(p, system, tools, before, new');
  }

  lemma DifferentTurnsStayDifferent(
      p: Provider, system: SystemValue, tools: seq<ToolSchema>,
      before: seq<Message>, old': Message, new': Message, after: seq<Message>)
    requires TurnsDiffer(p, system, tools, before, old', new')
    ensures Before(p, system, tools, before + [old'] + after) != Before(p, system, tools, before + [new'] + after)
  {
    EmittedStays(p, system, tools, before, old', after);
    EmittedStays(p, system, tools, before, new', after);
    var turns := Before(p, system, tools, before);
    var x := turns + [Emitted(p, system, tools, before, old').value];
    var y := turns + [Emitted(p, system, tools, before, new').value];
    assert x[|turns|] != y[|turns|];
  }

  /** The turn at `at`, flushed or still gathered, has `block` as its block number `k`. */
  predicate Holds(d: Draft, at: nat, k: nat, block: Block) {
    at < |Flush(d).turns| && k < |Flush(d).turns[at].content| && Flush(d).turns[at].content[k] == block
    && (|d.turns| <= at ==> |d.turns| == at && d.results != [])
  }

  lemma HoldsOn(
      p: Provider, system: SystemValue, tools: seq<ToolSchema>, d: Draft, message: Message, at: nat, k: nat,
      block: Block)
    requires Holds(d, at, k, block)
    ensures Holds(Add(p, system, tools, d, message), at, k, block)
  {}

  lemma {:induction false} HoldsAlways(
      p: Provider, system: SystemValue, tools: seq<ToolSchema>, a: seq<Message>, after: seq<Message>, at: nat,
      k: nat, block: Block)
    requires Holds(Fold(p, system, tools, a), at, k, block)
    ensures Holds(Fold(p, system, tools, a + after), at, k, block)
    decreases |after|
  {
    if after == [] {
      NothingMore(a);
    } else {
      HoldsAlways(p, system, tools, a, after[..|after| - 1], at, k, block);
      FoldEnd(p, system, tools, a, after);
      HoldsOn(p, system, tools, Fold(p, system, tools, a + after[..|after| - 1]), after[|after| - 1], at, k, block);
    }
  }

  /** A result keeps its place however the conversation goes on. */
  lemma ResultStays(
      p: Provider, system: SystemValue, tools: seq<ToolSchema>, before: seq<Message>, result: Message,
      after: seq<Message>)
    requires result.Tool?
    ensures var d := Fold(p, system, tools, before);
            Holds(Fold(p, system, tools, before + [result] + after), |d.turns|, |d.results|, ResultBlock(result))
  {
    var d := Fold(p, system, tools, before);
    FoldLast(p, system, tools, before, result);
    assert Holds(Add(p, system, tools, d, result), |d.turns|, |d.results|, ResultBlock(result));
    HoldsAlways(p, system, tools, before + [result], after, |d.turns|, |d.results|, ResultBlock(result));
  }

  /** One draft is at least a turn shorter than the other, now and once its results are flushed. */
  predicate Behind(y: Draft, x: Draft) {
    |y.turns| + 1 <= |x.turns| && |Flush(y).turns| + 1 <= |Flush(x).turns|
  }

  lemma StaysBehind(p: Provider, system: SystemValue, tools: seq<ToolSchema>, x: Draft, y: Draft, message: Message)
    requires Behind(y, x) && Add(p, system, tools, x, message).skipped == 0
    ensures Behind(Add(p, system, tools, y, message), Add(p, system, tools, x, message))
  {}

  /** While the longer side skips nothing, the shorter stays behind. */
  lemma {:induction false} AlwaysBehind(
      p: Provider, system: SystemValue, tools: seq<ToolSchema>, a: seq<Message>, b: seq<Message>, after: seq<Message>)
    requires Behind(Fold(p, system, tools, b), Fold(p, system, tools, a))
    requires Fold(p, system, tools, a + after).skipped == 0
    ensures Behind(Fold(p, system, tools, b + after), Fold(p, system, tools, a + after))
    decreases |after|
  {
    if after == [] {
      NothingMore(a);
      NothingMore(b);
    } else {
      FoldEnd(p, system, tools, a, after);
      FoldEnd(p, system, tools, b, after);
      AlwaysBehind(p, system, tools, a, b, after[..|after| - 1]);
      StaysBehind(p, system, tools, Fold(p, system, tools, a + after[..|after| - 1]),
                  Fold(p, system, tools, b + after[..|after| - 1]), after[|after| - 1]);
    }
  }

  /** A message that is skipped leaves the conversation a turn behind one in which it was sent. */
  lemma SkippedIsBehind(
      p: Provider, system: SystemValue, tools: seq<ToolSchema>, before: seq<Message>, old': Message, new': Message,
      after: seq<Message>)
    requires MakesATurn(old') && MakesATurn(new')
    requires Emitted(p, system, tools, before, old').Some? && Emitted(p, system, tools, before, new').None?
    requires Fold(p, system, tools, before + [old'] + after).skipped == 0
    ensures Before(p, system, tools, before + [old'] + after) != Before(p, system, tools, before + [new'] + after)
  {
    FoldLast(p, system, tools, before, old');
    FoldLast(p, system, tools, before, new');
    AlwaysBehind(p, system, tools, before + [old'], before + [new'], after);
  }

  /** What the comparison of an edit needs: both messages are sent, or the original skipped nothing. */
  predicate Comparable(
      p: Provider, tools: seq<ToolSchema>, before: seq<Message>, old': Message, new': Message,
      after: seq<Message>) {
    var a := before + [old'] + after;
    && Editable(old', new')
    && (SkippedIn(p, tools, a) == 0
        || old'.Tool?
        || (Emitted(p, CanonicalSystem(a), tools, before, old').Some?
            && Emitted(p, CanonicalSystem(a), tools, before, new').Some?))
  }

  lemma NotSkippedIsEmitted(
      p: Provider, system: SystemValue, tools: seq<ToolSchema>, before: seq<Message>, message: Message,
      after: seq<Message>)
    requires MakesATurn(message) && Fold(p, system, tools, before + [message] + after).skipped == 0
    ensures Emitted(p, system, tools, before, message).Some?
  {
    FoldGrows(p, system, tools, before + [message], after);
    FoldLast(p, system, tools, before, message);
  }

  lemma UnlikeTurnsDiffer(
      p: Provider, system: SystemValue, tools: seq<ToolSchema>, before: seq<Message>, old': Message, new': Message,
      rest: seq<Message>)
    requires Editable(old', new') && !Alike(p, system, tools, before, old', new')
    requires old'.Tool? || Fold(p, system, tools, before + [old'] + rest).skipped == 0
             || (Emitted(p, system, tools, before, old').Some? && Emitted(p, system, tools, before, new').Some?)
    ensures Before(p, system, tools, before + [old'] + rest) != Before(p, system, tools, before + [new'] + rest)
  {
    if old'.Tool? {
      ResultStays(p, system, tools, before, old', rest);
      ResultStays(p, system, tools, before, new', rest);
    } else {
      if Fold(p, system, tools, before + [old'] + rest).skipped == 0 {
        NotSkippedIsEmitted(p, system, tools, before, old', rest);
      }
      if Emitted(p, system, tools, before, new').None? {
        SkippedIsBehind(p, system, tools, before, old', new', rest);
      } else {
        DifferentTurnsStayDifferent(p, system, tools, before, old', new', rest);
      }
    }
  }

  // ---- an edit in place ---------------------------------------------------------------------------------

  lemma SkipsNothingBefore(p: Provider, tools: seq<ToolSchema>, all: seq<Message>, i: nat)
    requires i <= |all| && SkippedIn(p, tools, all) == 0
    ensures Fold(p, CanonicalSystem(all), tools, all[..i]).skipped == 0
  {
    assert all == all[..i] + all[i..];
    FoldGrows(p, CanonicalSystem(all), tools, all[..i], all[i..]);
  }

  lemma LikeStaysSigned(
      p: Provider, tools: seq<ToolSchema>, before: seq<Message>, old': Message, new': Message, after: seq<Message>,
      at: nat)
    requires at < |after| && after[at].Assistant? && Editable(old', new')
    requires Alike(p, CanonicalSystem(before + [old'] + after), tools, before, old', new')
    ensures FateAt(p, tools, before + [new'] + after, |before| + 1 + at)
            == FateAt(p, tools, before + [old'] + after, |before| + 1 + at)
  {
    CutAfter(before, [old'], after, at);
    CutAfter(before, [new'], after, at);
    NoSystemInAnEdit(before, old', new', after);
    AlikeBodies(p, CanonicalSystem(before + [old'] + after), tools, before, old', new', after[..at]);
  }

  lemma UnlikeIsUnsigned(
      p: Provider, tools: seq<ToolSchema>, before: seq<Message>, old': Message, new': Message, after: seq<Message>,
      at: nat)
    requires Injective(p.fingerprint) && Comparable(p, tools, before, old', new', after)
    requires at < |after| && after[at].Assistant?
    requires FateAt(p, tools, before + [old'] + after, |before| + 1 + at) == Signed
    requires !Alike(p, CanonicalSystem(before + [old'] + after), tools, before, old', new')
    ensures FateAt(p, tools, before + [new'] + after, |before| + 1 + at) != Signed
  {
    var a := before + [old'] + after;
    CutAfter(before, [old'], after, at);
    CutAfter(before, [new'], after, at);
    if SkippedIn(p, tools, a) == 0 {
      SkipsNothingBefore(p, tools, a, |before| + 1 + at);
    }
    UnlikeTurnsDiffer(p, CanonicalSystem(a), tools, before, old', new', after[..at]);
    OtherTurnsUnsign(p, tools, a, |before| + 1 + at, before + [new'] + after, |before| + 1 + at);
  }

  /**
    Replace one message by another of its kind: a later assistant turn that was sent signed is sent
    signed again if and only if the replacement is sent as the very same turn or result.
   */
  lemma StaysSignedExactlyWhen(
      p: Provider, tools: seq<ToolSchema>, before: seq<Message>, old': Message, new': Message, after: seq<Message>,
      at: nat)
    requires Injective(p.fingerprint) && Comparable(p, tools, before, old', new', after)
    requires at < |after| && after[at].Assistant?
    requires FateAt(p, tools, before + [old'] + after, |before| + 1 + at) == Signed
    ensures (FateAt(p, tools, before + [new'] + after, |before| + 1 + at) == Signed)
            <==> Alike(p, CanonicalSystem(before + [old'] + after), tools, before, old', new')
  {
    if Alike(p, CanonicalSystem(before + [old'] + after), tools, before, old', new') {
      LikeStaysSigned(p, tools, before, old', new', after, at);
    } else {
      UnlikeIsUnsigned(p, tools, before, old', new', after, at);
    }
  }

  /**
    Replace one user or assistant message so that its turn differs, and no later assistant turn that
    was sent signed is sent signed again.
   */
  lemma ReplacingATurnUnsignsTheRest(
      p: Provider, tools: seq<ToolSchema>, before: seq<Message>, old': Message, new': Message, after: seq<Message>,
      at: nat)
    requires Injective(p.fingerprint)
    requires at < |after| && after[at].Assistant?
    requires TurnsDiffer(p, CanonicalSystem(before + [old'] + after), tools, before, old', new')
    requires FateAt(p, tools, before + [old'] + after, |before| + 1 + at) == Signed
    ensures FateAt(p, tools, before + [new'] + after, |before| + 1 + at) != Signed
  {
    UnlikeIsUnsigned(p, tools, before, old', new', after, at);
  }

  // ---- removing and inserting a run ------------------------------------------------------------------------

  /** Some message of the run makes a turn of its own. */
  predicate HasATurn(mid: seq<Message>) {
    exists k :: 0 <= k < |mid| && MakesATurn(mid[k])
  }

  lemma TurnIsAhead(p: Provider, system: SystemValue, tools: seq<ToolSchema>, a: seq<Message>, message: Message)
    requires MakesATurn(message) && Fold(p, system, tools, a + [message]).skipped == 0
    ensures Behind(Fold(p, system, tools, a), Fold(p, system, tools, a + [message]))
  {
    FoldLast(p, system, tools, a, message);
  }

  lemma BehindBetween(
      p: Provider, system: SystemValue, tools: seq<ToolSchema>, a: seq<Message>, b: seq<Message>, c: seq<Message>,
      d: seq<Message>)
    requires Behind(Fold(p, system, tools, a + b), Fold(p, system, tools, c))
    ensures Behind(Fold(p, system, tools, a), Fold(p, system, tools, c + d))
  {
    FoldGrows(p, system, tools, a, b);
    FlushGrows(p, system, tools, a, b);
    FoldGrows(p, system, tools, c, d);
    FlushGrows(p, system, tools, c, d);
  }

  /** A run that makes a turn and is sent whole leaves the conversation without it behind. */
  lemma RunIsAhead(p: Provider, system: SystemValue, tools: seq<ToolSchema>, before: seq<Message>, mid: seq<Message>)
    requires HasATurn(mid) && Fold(p, system, tools, before + mid).skipped == 0
    ensures Behind(Fold(p, system, tools, before), Fold(p, system, tools, before + mid))
  {
    var k :| 0 <= k < |mid| && MakesATurn(mid[k]);
    var upto, rest := before + mid[..k] + [mid[k]], mid[k + 1..];
    assert before + mid == upto + rest;
    FoldGrows(p, system, tools, upto, rest);
    TurnIsAhead(p, system, tools, before + mid[..k], mid[k]);
    BehindBetween(p, system, tools, before, mid[..k], upto, rest);
  }

  lemma {:induction false} FlushGrows(
      p: Provider, system: SystemValue, tools: seq<ToolSchema>, a: seq<Message>, b: seq<Message>)
    ensures |Before(p, system, tools, a)| <= |Before(p, system, tools, a + b)|
    decreases |b|
  {
    if b == [] {
      NothingMore(a);
    } else {
      FlushGrows(p, system, tools, a, b[..|b| - 1]);
      FoldEnd(p, system, tools, a, b);
    }
  }

  /**
    Hide a run of messages that makes at least one turn, from a request that skipped nothing, and no
    later assistant turn is signed in both. Read the other way, inserting a run does the same.
   */
  lemma HidingARunUnsignsTheRest(
      p: Provider, tools: seq<ToolSchema>, before: seq<Message>, mid: seq<Message>, after: seq<Message>, at: nat)
    requires Injective(p.fingerprint) && HasATurn(mid)
    requires SkippedIn(p, tools, before + mid + after) == 0
    requires at < |after| && after[at].Assistant?
    ensures !(FateAt(p, tools, before + mid + after, |before + mid| + at) == Signed
              && FateAt(p, tools, before + after, |before| + at) == Signed)
  {
    CutAfter(before, mid, after, at);
    CutShort(before, after, at);
    HiddenBelow(p, tools, before + mid + after, |before + mid| + at, before + after, |before| + at, before, mid,
                after[..at]);
  }

  lemma HiddenBelow(
      p: Provider, tools: seq<ToolSchema>, a: seq<Message>, i: nat, b: seq<Message>, j: nat,
      before: seq<Message>, mid: seq<Message>, rest: seq<Message>)
    requires Injective(p.fingerprint) && HasATurn(mid) && SkippedIn(p, tools, a) == 0
    requires i < |a| && j < |b| && a[i].Assistant? && a[i] == b[j]
    requires a[..i] == before + mid + rest && b[..j] == before + rest
    ensures !(FateAt(p, tools, a, i) == Signed && FateAt(p, tools, b, j) == Signed)
  {
    if FateAt(p, tools, a, i) == Signed {
      SkipsNothingBefore(p, tools, a, i);
      HiddenTurnsDiffer(p, CanonicalSystem(a), tools, before, mid, rest);
      OtherTurnsUnsign(p, tools, a, i, b, j);
    }
  }

  lemma HiddenTurnsDiffer(
      p: Provider, system: SystemValue, tools: seq<ToolSchema>, before: seq<Message>, mid: seq<Message>,
      rest: seq<Message>)
    requires HasATurn(mid) && Fold(p, system, tools, before + mid + rest).skipped == 0
    ensures Before(p, system, tools, before + mid + rest) != Before(p, system, tools, before + rest)
  {
    FoldGrows(p, system, tools, before + mid, rest);
    RunIsAhead(p, system, tools, before, mid);
    AlwaysBehind(p, system, tools, before + mid, before, rest);
  }

  /**
    What an edit in place leaves signed: the assistant turns before it are sent as they were, and of
    those after it that were signed none is signed again when the edited message is sent differently,
    all of them when it is not.
   */
  lemma WhatAnEditReaches(
      p: Provider, tools: seq<ToolSchema>, before: seq<Message>, old': Message, new': Message, after: seq<Message>)
    requires Injective(p.fingerprint) && Comparable(p, tools, before, old', new', after)
    ensures forall i :: 0 <= i < |before| && before[i].Assistant? ==>
              FateAt(p, tools, before + [new'] + after, i) == FateAt(p, tools, before + [old'] + after, i)
    ensures forall at | 0 <= at < |after| && after[at].Assistant?
                && FateAt(p, tools, before + [old'] + after, |before| + 1 + at) == Signed ::
              (FateAt(p, tools, before + [new'] + after, |before| + 1 + at) == Signed
               <==> Alike(p, CanonicalSystem(before + [old'] + after), tools, before, old', new'))
  {
    NoSystemInAnEdit(before, old', new', after);
    forall i | 0 <= i < |before| && before[i].Assistant?
      ensures FateAt(p, tools, before + [new'] + after, i) == FateAt(p, tools, before + [old'] + after, i)
    {
      FateBefore(p, tools, before, [old'], [new'], after, i);
    }
    forall at | 0 <= at < |after| && after[at].Assistant?
                && FateAt(p, tools, before + [old'] + after, |before| + 1 + at) == Signed
      ensures (FateAt(p, tools, before + [new'] + after, |before| + 1 + at) == Signed
               <==> Alike(p, CanonicalSystem(before + [old'] + after), tools, before, old', new'))
    {
      StaysSignedExactlyWhen(p, tools, before, old', new', after, at);
    }
  }
}
