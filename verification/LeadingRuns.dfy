/** When the assistant turns that are sent signed come before all the others. */
module LeadingRuns {
  import opened Wrappers
  import opened Messages
  import opened Encoder
  import opened EncoderProofs
  import opened Edits

  // ---- leading runs ----------------------------------------------------------------------------------------

  /** The assistant turns sent signed come before all the others. */
  predicate LeadingRun(p: Provider, tools: seq<ToolSchema>, messages: seq<Message>) {
    forall i, j :: 0 <= i < j < |messages| && messages[i].Assistant? && messages[j].Assistant?
                   && FateAt(p, tools, messages, j) == Signed ==>
      FateAt(p, tools, messages, i) == Signed
  }

  predicate AllSigned(p: Provider, tools: seq<ToolSchema>, messages: seq<Message>) {
    forall i :: 0 <= i < |messages| && messages[i].Assistant? ==> FateAt(p, tools, messages, i) == Signed
  }

  lemma {:induction false} AllSignedTo(p: Provider, tools: seq<ToolSchema>, messages: seq<Message>, i: nat)
    requires i <= |messages| && AllSigned(p, tools, messages)
    ensures Fold(p, CanonicalSystem(messages), tools, messages[..i]).skipped == 0
  {
    if i != 0 {
      AllSignedTo(p, tools, messages, i - 1);
      assert messages[..i] == messages[..i - 1] + [messages[i - 1]];
      FoldLast(p, CanonicalSystem(messages), tools, messages[..i - 1], messages[i - 1]);
    }
  }

  /** What is sent all signed skips nothing. */
  lemma AllSignedSkipsNothing(p: Provider, tools: seq<ToolSchema>, messages: seq<Message>)
    requires AllSigned(p, tools, messages)
    ensures SkippedIn(p, tools, messages) == 0
  {
    AllSignedTo(p, tools, messages, |messages|);
    assert messages[..|messages|] == messages;
  }

  /** A turn in a common part of two conversations of one system is judged alike. */
  lemma FateInCommon(p: Provider, tools: seq<ToolSchema>, a: seq<Message>, b: seq<Message>, n: nat, i: nat)
    requires i < n <= |a| && n <= |b| && a[..n] == b[..n] && CanonicalSystem(a) == CanonicalSystem(b)
    ensures a[i] == b[i] && (a[i].Assistant? ==> FateAt(p, tools, a, i) == FateAt(p, tools, b, i))
  {
    assert a[..n][i] == b[..n][i] && a[..i] == a[..n][..i] == b[..n][..i] == b[..i];
  }

  lemma LeadsInCommon(p: Provider, tools: seq<ToolSchema>, a: seq<Message>, b: seq<Message>, n: nat, i: nat, j: nat)
    requires Injective(p.fingerprint) && AllSigned(p, tools, a)
    requires n <= |a| && n <= |b| && a[..n] == b[..n]
    requires i < j < n && b[i].Assistant? && b[j].Assistant? && FateAt(p, tools, b, j) == Signed
    ensures FateAt(p, tools, b, i) == Signed
  {
    assert a[..n][j] == b[..n][j] && a[..n][i] == b[..n][i];
    SignedMeansSamePrefix(p, tools, a, j, b, j);
    FateInCommon(p, tools, a, b, n, i);
  }

  /**
    Of two conversations that are the same up to `n`, the first sent all signed: when nothing of the
    second is signed from there on, but for the one message at `n`, what is signed is a leading run.
   */
  lemma NothingLaterIsLeading(p: Provider, tools: seq<ToolSchema>, a: seq<Message>, b: seq<Message>, n: nat)
    requires Injective(p.fingerprint) && AllSigned(p, tools, a)
    requires n <= |a| && n <= |b| && a[..n] == b[..n]
    requires forall j :: n <= j < |b| && b[j].Assistant? && FateAt(p, tools, b, j) == Signed ==>
               j == n && CanonicalSystem(a) == CanonicalSystem(b)
    ensures LeadingRun(p, tools, b)
  {
    forall i, j | 0 <= i < j < |b| && b[i].Assistant? && b[j].Assistant? && FateAt(p, tools, b, j) == Signed
      ensures FateAt(p, tools, b, i) == Signed
    {
      if j < n {
        LeadsInCommon(p, tools, a, b, n, i, j);
      } else {
        FateInCommon(p, tools, a, b, n, i);
      }
    }
  }

  lemma CommonStart(before: seq<Message>, mid: seq<Message>, after: seq<Message>)
    ensures |before| <= |before + mid + after| && (before + mid + after)[..|before|] == before
    ensures |before| <= |before + after| && (before + after)[..|before|] == before
  {}

  /** An assistant message that is not sent signed where it was put, with an assistant turn after it. */
  predicate UnsignedInside(
      p: Provider, tools: seq<ToolSchema>, before: seq<Message>, new': Message, after: seq<Message>) {
    && new'.Assistant? && FateAt(p, tools, before + [new'] + after, |before|) != Signed
    && exists at :: 0 <= at < |after| && after[at].Assistant?
  }

  lemma AlikeAllSigned(
      p: Provider, tools: seq<ToolSchema>, before: seq<Message>, old': Message, new': Message, after: seq<Message>,
      at: nat)
    requires Editable(old', new') && AllSigned(p, tools, before + [old'] + after)
    requires at < |after| && after[at].Assistant?
    requires Alike(p, CanonicalSystem(before + [old'] + after), tools, before, old', new')
    ensures FateAt(p, tools, before + [new'] + after, |before| + 1 + at) == Signed
  {
    CutAfter(before, [old'], after, at);
    CutAfter(before, [new'], after, at);
    LikeStaysSigned(p, tools, before, old', new', after, at);
  }

  lemma UnlikeNoneSigned(
      p: Provider, tools: seq<ToolSchema>, before: seq<Message>, old': Message, new': Message, after: seq<Message>,
      j: nat)
    requires Injective(p.fingerprint) && Editable(old', new') && AllSigned(p, tools, before + [old'] + after)
    requires |before| < j < |before + [new'] + after| && (before + [new'] + after)[j].Assistant?
    requires !Alike(p, CanonicalSystem(before + [old'] + after), tools, before, old', new')
    ensures FateAt(p, tools, before + [new'] + after, j) != Signed
  {
    var at := j - |before| - 1;
    CutAfter(before, [old'], after, at);
    CutAfter(before, [new'], after, at);
    AllSignedSkipsNothing(p, tools, before + [old'] + after);
    UnlikeIsUnsigned(p, tools, before, old', new', after, at);
  }

  /**
    After an edit in place of a conversation sent all signed, what is still signed is a leading run,
    unless the replacement is an assistant message that is sent as the very same turn without being
    signed, and an assistant turn follows it: then, and only then, it is not.
   */
  lemma AnEditLeavesALeadingRun(
      p: Provider, tools: seq<ToolSchema>, before: seq<Message>, old': Message, new': Message, after: seq<Message>)
    requires Injective(p.fingerprint) && Editable(old', new')
    requires AllSigned(p, tools, before + [old'] + after)
    ensures LeadingRun(p, tools, before + [new'] + after) <==>
            !(UnsignedInside(p, tools, before, new', after)
              && Alike(p, CanonicalSystem(before + [old'] + after), tools, before, old', new'))
  {
    var a, b := before + [old'] + after, before + [new'] + after;
    NoSystemInAnEdit(before, old', new', after);
    if !Alike(p, CanonicalSystem(a), tools, before, old', new') {
      forall j | |before| < j < |b| && b[j].Assistant? ensures FateAt(p, tools, b, j) != Signed {
        UnlikeNoneSigned(p, tools, before, old', new', after, j);
      }
      CommonStart(before, [old'], after);
      CommonStart(before, [new'], after);
      NothingLaterIsLeading(p, tools, a, b, |before|);
    } else {
      AlikeLeavesALeadingRun(p, tools, before, old', new', after);
    }
  }

  lemma AlikeLeavesALeadingRun(
      p: Provider, tools: seq<ToolSchema>, before: seq<Message>, old': Message, new': Message, after: seq<Message>)
    requires Editable(old', new') && AllSigned(p, tools, before + [old'] + after)
    requires Alike(p, CanonicalSystem(before + [old'] + after), tools, before, old', new')
    ensures LeadingRun(p, tools, before + [new'] + after) <==> !UnsignedInside(p, tools, before, new', after)
  {
    var a, b := before + [old'] + after, before + [new'] + after;
    NoSystemInAnEdit(before, old', new', after);
    forall j | 0 <= j < |b| && j != |before| && b[j].Assistant? ensures FateAt(p, tools, b, j) == Signed {
      AlikeElsewhere(p, tools, before, old', new', after, j);
    }
    if UnsignedInside(p, tools, before, new', after) {
      var at :| 0 <= at < |after| && after[at].Assistant?;
      CutAfter(before, [new'], after, at);
      assert FateAt(p, tools, b, |before| + 1 + at) == Signed;
    } else if new'.Assistant? && FateAt(p, tools, b, |before|) != Signed {
      forall j | |before| < j < |b| ensures !b[j].Assistant? {
        CutAfter(before, [new'], after, j - |before| - 1);
      }
    }
  }

  /** Whether thinking, open or redacted, is among the blocks. */
  predicate HoldsThinking(blocks: seq<Block>) {
    exists k :: 0 <= k < |blocks| && !blocks[k].Cacheable()
  }

  lemma {:induction false} NoThinkingInCalls(calls: seq<Call>)
    ensures !HoldsThinking(EncodeCalls(calls))
  {
    if calls != [] {
      NoThinkingInCalls(calls[1..]);
    }
  }

  lemma NoThinkingIsNeutral(message: Message)
    requires message.Assistant?
    ensures !HoldsThinking(NeutralTurn(message).content)
  {
    NoThinkingInCalls(message.calls);
  }

  /**
    Of a conversation sent all signed, an edit of a turn retained with thinking, as the adapter retains
    them, or of a user message or a result, always leaves a leading run.
   */
  lemma AnEditOfThinkingLeavesALeadingRun(
      p: Provider, tools: seq<ToolSchema>, before: seq<Message>, old': Message, new': Message, after: seq<Message>)
    requires Injective(p.fingerprint) && Editable(old', new')
    requires AllSigned(p, tools, before + [old'] + after)
    requires old'.Assistant? && old'.replay.Some? ==> HoldsThinking(old'.replay.value.blocks)
    ensures LeadingRun(p, tools, before + [new'] + after)
  {
    var a := before + [old'] + after;
    AnEditLeavesALeadingRun(p, tools, before, old', new', after);
    NoSystemInAnEdit(before, old', new', after);
    assert a[|before|] == old' && a[..|before|] == before;
    assert (before + [new'] + after)[..|before|] == before;
    if new'.Assistant? {
      NoThinkingIsNeutral(new');
    }
  }

  lemma AlikeElsewhere(
      p: Provider, tools: seq<ToolSchema>, before: seq<Message>, old': Message, new': Message, after: seq<Message>,
      j: nat)
    requires Editable(old', new') && AllSigned(p, tools, before + [old'] + after)
    requires Alike(p, CanonicalSystem(before + [old'] + after), tools, before, old', new')
    requires j < |before + [new'] + after| && j != |before| && (before + [new'] + after)[j].Assistant?
    ensures FateAt(p, tools, before + [new'] + after, j) == Signed
  {
    if j < |before| {
      NoSystemInAnEdit(before, old', new', after);
      CutBefore(before, [new'], after, j);
      FateBefore(p, tools, before, [old'], [new'], after, j);
    } else {
      CutAfter(before, [new'], after, j - |before| - 1);
      AlikeAllSigned(p, tools, before, old', new', after, j - |before| - 1);
    }
  }

  /** Hiding a run that makes a turn, from a conversation sent all signed, leaves a leading run signed. */
  lemma HidingARunLeavesALeadingRun(
      p: Provider, tools: seq<ToolSchema>, before: seq<Message>, mid: seq<Message>, after: seq<Message>)
    requires Injective(p.fingerprint) && HasATurn(mid) && AllSigned(p, tools, before + mid + after)
    ensures LeadingRun(p, tools, before + after)
  {
    var b := before + after;
    CommonStart(before, mid, after);
    forall j | |before| <= j < |b| && b[j].Assistant? ensures FateAt(p, tools, b, j) != Signed {
      NoneSignedAfterHiding(p, tools, before + mid + after, b, before, mid, after, j);
    }
    NothingLaterIsLeading(p, tools, before + mid + after, b, |before|);
  }

  lemma AllSignedAt(p: Provider, tools: seq<ToolSchema>, messages: seq<Message>, i: nat)
    requires AllSigned(p, tools, messages) && i < |messages| && messages[i].Assistant?
    ensures FateAt(p, tools, messages, i) == Signed
  {}

  lemma NoneSignedAfterHiding(
      p: Provider, tools: seq<ToolSchema>, a: seq<Message>, b: seq<Message>,
      before: seq<Message>, mid: seq<Message>, after: seq<Message>, j: nat)
    requires Injective(p.fingerprint) && HasATurn(mid) && AllSigned(p, tools, a)
    requires a == before + mid + after && b == before + after
    requires |before| <= j < |b| && b[j].Assistant?
    ensures FateAt(p, tools, b, j) != Signed
  {
    var at := j - |before|;
    CutAfter(before, mid, after, at);
    CutShort(before, after, at);
    AllSignedSkipsNothing(p, tools, a);
    AllSignedAt(p, tools, a, |before + mid| + at);
    HiddenBelow(p, tools, a, |before + mid| + at, b, j, before, mid, after[..at]);
  }

  /**
    Inserting a run that makes a turn and carries no replay, as the generated working data does, into
    a conversation sent all signed leaves a leading run signed, when the request skips nothing.
   */
  lemma InsertingARunLeavesALeadingRun(
      p: Provider, tools: seq<ToolSchema>, before: seq<Message>, mid: seq<Message>, after: seq<Message>)
    requires Injective(p.fingerprint) && HasATurn(mid) && AllSigned(p, tools, before + after)
    requires forall k :: 0 <= k < |mid| && mid[k].Assistant? ==> mid[k].replay.None?
    requires SkippedIn(p, tools, before + mid + after) == 0
    ensures LeadingRun(p, tools, before + mid + after)
  {
    var b := before + mid + after;
    CommonStart(before, mid, after);
    forall j | |before| <= j < |b| && b[j].Assistant? ensures FateAt(p, tools, b, j) != Signed {
      NoneSignedAfterInserting(p, tools, before, mid, after, j);
    }
    NothingLaterIsLeading(p, tools, before + after, b, |before|);
  }

  lemma NoneSignedAfterInserting(
      p: Provider, tools: seq<ToolSchema>, before: seq<Message>, mid: seq<Message>, after: seq<Message>, j: nat)
    requires Injective(p.fingerprint) && HasATurn(mid) && AllSigned(p, tools, before + after)
    requires forall k :: 0 <= k < |mid| && mid[k].Assistant? ==> mid[k].replay.None?
    requires SkippedIn(p, tools, before + mid + after) == 0
    requires |before| <= j < |before + mid + after| && (before + mid + after)[j].Assistant?
    ensures FateAt(p, tools, before + mid + after, j) != Signed
  {
    if j < |before + mid| {
      assert (before + mid + after)[j] == mid[j - |before|];
    } else {
      CutAfter(before, mid, after, j - |before + mid|);
      LaterIsNotSigned(p, tools, before + mid + after, before + after, before, mid, after, j - |before + mid|);
    }
  }

  lemma LaterIsNotSigned(
      p: Provider, tools: seq<ToolSchema>, a: seq<Message>, b: seq<Message>,
      before: seq<Message>, mid: seq<Message>, after: seq<Message>, at: nat)
    requires Injective(p.fingerprint) && HasATurn(mid) && SkippedIn(p, tools, a) == 0 && AllSigned(p, tools, b)
    requires a == before + mid + after && b == before + after
    requires at < |after| && after[at].Assistant?
    ensures |before + mid| + at < |a| && a[|before + mid| + at] == after[at]
    ensures FateAt(p, tools, a, |before + mid| + at) != Signed
  {
    CutAfter(before, mid, after, at);
    CutShort(before, after, at);
    AllSignedAt(p, tools, b, |before| + at);
    HiddenBelow(p, tools, a, |before + mid| + at, b, |before| + at, before, mid, after[..at]);
  }

  // ---- what survives of any leading run ---------------------------------------------------------------

  /** A turn is sent signed in both requests. */
  predicate Survives(p: Provider, tools: seq<ToolSchema>, a: seq<Message>, i: nat, b: seq<Message>, j: nat) {
    && i < |a| && a[i].Assistant? && FateAt(p, tools, a, i) == Signed
    && j < |b| && b[j].Assistant? && FateAt(p, tools, b, j) == Signed
  }

  /** Before a turn that survives, the second request sends no turn unsigned. */
  predicate SurvivorsLead(p: Provider, tools: seq<ToolSchema>, a: seq<Message>, b: seq<Message>) {
    forall i, j :: 0 <= i < j < |b| && b[i].Assistant? && Survives(p, tools, a, j, b, j) ==>
      FateAt(p, tools, b, i) == Signed
  }

  predicate SignedAfter(p: Provider, tools: seq<ToolSchema>, messages: seq<Message>, n: nat) {
    exists j :: n < j < |messages| && messages[j].Assistant? && FateAt(p, tools, messages, j) == Signed
  }

  /** An assistant message that is not sent signed where it was put, before a turn that was signed. */
  predicate UnsignedBeforeSigned(
      p: Provider, tools: seq<ToolSchema>, before: seq<Message>, old': Message, new': Message, after: seq<Message>) {
    && new'.Assistant? && FateAt(p, tools, before + [new'] + after, |before|) != Signed
    && SignedAfter(p, tools, before + [old'] + after, |before|)
  }

  lemma SurvivorIsAlike(
      p: Provider, tools: seq<ToolSchema>, before: seq<Message>, old': Message, new': Message, after: seq<Message>,
      at: nat)
    requires Injective(p.fingerprint) && Comparable(p, tools, before, old', new', after)
    requires at < |after| && after[at].Assistant?
    requires Survives(p, tools, before + [old'] + after, |before| + 1 + at, before + [new'] + after, |before| + 1 + at)
    ensures Alike(p, CanonicalSystem(before + [old'] + after), tools, before, old', new')
  {
    StaysSignedExactlyWhen(p, tools, before, old', new', after, at);
  }

  /** Where an edit does not reach, the fates are those of the original. */
  lemma FateElsewhere(
      p: Provider, tools: seq<ToolSchema>, before: seq<Message>, old': Message, new': Message, after: seq<Message>,
      i: nat)
    requires Editable(old', new') && i < |before + [new'] + after| && i != |before|
    requires (before + [new'] + after)[i].Assistant?
    requires i < |before| || Alike(p, CanonicalSystem(before + [old'] + after), tools, before, old', new')
    ensures i < |before + [old'] + after| && (before + [old'] + after)[i] == (before + [new'] + after)[i]
    ensures FateAt(p, tools, before + [new'] + after, i) == FateAt(p, tools, before + [old'] + after, i)
  {
    if i < |before| {
      NoSystemInAnEdit(before, old', new', after);
      CutBefore(before, [new'], after, i);
      FateBefore(p, tools, before, [old'], [new'], after, i);
    } else {
      CutAfter(before, [old'], after, i - |before| - 1);
      CutAfter(before, [new'], after, i - |before| - 1);
      LikeStaysSigned(p, tools, before, old', new', after, i - |before| - 1);
    }
  }

  /**
    After an edit in place of any request whose signed turns lead, those that are still signed lead
    too, unless the replacement is an assistant message sent as the very same turn without being
    signed, and a turn that was signed follows it: then, and only then, they do not.
   */
  lemma SurvivorsOfAnEditLead(
      p: Provider, tools: seq<ToolSchema>, before: seq<Message>, old': Message, new': Message, after: seq<Message>)
    requires Injective(p.fingerprint) && Comparable(p, tools, before, old', new', after)
    requires LeadingRun(p, tools, before + [old'] + after)
    ensures SurvivorsLead(p, tools, before + [old'] + after, before + [new'] + after) <==>
            !(UnsignedBeforeSigned(p, tools, before, old', new', after)
              && Alike(p, CanonicalSystem(before + [old'] + after), tools, before, old', new'))
  {
    var a, b := before + [old'] + after, before + [new'] + after;
    if UnsignedBeforeSigned(p, tools, before, old', new', after)
       && Alike(p, CanonicalSystem(a), tools, before, old', new') {
      UnsignedBeforeASurvivor(p, tools, before, old', new', after);
    } else {
      forall i, j | 0 <= i < j < |b| && b[i].Assistant? && Survives(p, tools, a, j, b, j)
        ensures FateAt(p, tools, b, i) == Signed
      {
        BeforeASurvivor(p, tools, before, old', new', after, i, j);
      }
    }
  }

  lemma UnsignedBeforeASurvivor(
      p: Provider, tools: seq<ToolSchema>, before: seq<Message>, old': Message, new': Message, after: seq<Message>)
    requires Editable(old', new') && UnsignedBeforeSigned(p, tools, before, old', new', after)
    requires Alike(p, CanonicalSystem(before + [old'] + after), tools, before, old', new')
    ensures !SurvivorsLead(p, tools, before + [old'] + after, before + [new'] + after)
  {
    var a := before + [old'] + after;
    var j :| |before| < j < |a| && a[j].Assistant? && FateAt(p, tools, a, j) == Signed;
    LikeSurvives(p, tools, before, old', new', after, j);
    NotLeadingAt(p, tools, a, before, new', after, j);
  }

  lemma NotLeadingAt(
      p: Provider, tools: seq<ToolSchema>, a: seq<Message>, before: seq<Message>, new': Message, after: seq<Message>,
      j: nat)
    requires new'.Assistant? && FateAt(p, tools, before + [new'] + after, |before|) != Signed
    requires |before| < j && Survives(p, tools, a, j, before + [new'] + after, j)
    ensures !SurvivorsLead(p, tools, a, before + [new'] + after)
  {
    CutHere(before, new', after);
    NotLeading(p, tools, a, before + [new'] + after, |before|, j);
  }

  lemma LikeSurvives(
      p: Provider, tools: seq<ToolSchema>, before: seq<Message>, old': Message, new': Message, after: seq<Message>,
      j: nat)
    requires Editable(old', new') && |before| < j < |before + [old'] + after|
    requires Alike(p, CanonicalSystem(before + [old'] + after), tools, before, old', new')
    requires (before + [old'] + after)[j].Assistant? && FateAt(p, tools, before + [old'] + after, j) == Signed
    ensures Survives(p, tools, before + [old'] + after, j, before + [new'] + after, j)
  {
    var at := j - |before| - 1;
    CutAfter(before, [old'], after, at);
    CutAfter(before, [new'], after, at);
    LikeStaysSigned(p, tools, before, old', new', after, at);
  }

  lemma NotLeading(p: Provider, tools: seq<ToolSchema>, a: seq<Message>, b: seq<Message>, i: nat, j: nat)
    requires i < j < |b| && b[i].Assistant? && FateAt(p, tools, b, i) != Signed && Survives(p, tools, a, j, b, j)
    ensures !SurvivorsLead(p, tools, a, b)
  {}

  lemma BeforeASurvivor(
      p: Provider, tools: seq<ToolSchema>, before: seq<Message>, old': Message, new': Message, after: seq<Message>,
      i: nat, j: nat)
    requires Injective(p.fingerprint) && Comparable(p, tools, before, old', new', after)
    requires LeadingRun(p, tools, before + [old'] + after)
    requires i < j && i < |before + [new'] + after| && (before + [new'] + after)[i].Assistant?
    requires Survives(p, tools, before + [old'] + after, j, before + [new'] + after, j)
    requires UnsignedBeforeSigned(p, tools, before, old', new', after) ==>
               !Alike(p, CanonicalSystem(before + [old'] + after), tools, before, old', new')
    ensures FateAt(p, tools, before + [new'] + after, i) == Signed
  {
    if |before| < j {
      LaterSurvivor(p, tools, before, old', new', after, j);
    }
    if i != |before| {
      FateElsewhere(p, tools, before, old', new', after, i);
    }
  }

  /** A survivor after the edit was signed there, and the replacement is sent as the very same turn. */
  lemma LaterSurvivor(
      p: Provider, tools: seq<ToolSchema>, before: seq<Message>, old': Message, new': Message, after: seq<Message>,
      j: nat)
    requires Injective(p.fingerprint) && Comparable(p, tools, before, old', new', after) && |before| < j
    requires Survives(p, tools, before + [old'] + after, j, before + [new'] + after, j)
    ensures Alike(p, CanonicalSystem(before + [old'] + after), tools, before, old', new')
    ensures new'.Assistant? && (before + [new'] + after)[|before|] == new'
            && FateAt(p, tools, before + [new'] + after, |before|) != Signed ==>
              UnsignedBeforeSigned(p, tools, before, old', new', after)
  {
    var at := j - |before| - 1;
    CutAfter(before, [old'], after, at);
    assert after[at].Assistant?;
    SurvivorIsAlike(p, tools, before, old', new', after, at);
  }

  /**
    Of any request whose signed turns lead, an edit of a turn retained with thinking, as the adapter
    retains them, or of a user message or a result, leaves survivors that lead.
   */
  lemma SurvivorsOfThinkingLead(
      p: Provider, tools: seq<ToolSchema>, before: seq<Message>, old': Message, new': Message, after: seq<Message>)
    requires Injective(p.fingerprint) && Comparable(p, tools, before, old', new', after)
    requires LeadingRun(p, tools, before + [old'] + after)
    requires old'.Assistant? && old'.replay.Some? ==> HoldsThinking(old'.replay.value.blocks)
    ensures SurvivorsLead(p, tools, before + [old'] + after, before + [new'] + after)
  {
    var a := before + [old'] + after;
    SurvivorsOfAnEditLead(p, tools, before, old', new', after);
    if UnsignedBeforeSigned(p, tools, before, old', new', after)
       && Alike(p, CanonicalSystem(a), tools, before, old', new') {
      NoSystemInAnEdit(before, old', new', after);
      CutHere(before, old', after);
      SignedAtTheEdit(p, tools, a, |before|);
      CutHere(before, new', after);
      NoThinkingIsNeutral(new');
      assert false;
    }
  }

  lemma CutHere(before: seq<Message>, message: Message, after: seq<Message>)
    ensures (before + [message] + after)[|before|] == message && (before + [message] + after)[..|before|] == before
  {}

  lemma SignedAtTheEdit(p: Provider, tools: seq<ToolSchema>, messages: seq<Message>, n: nat)
    requires LeadingRun(p, tools, messages) && SignedAfter(p, tools, messages, n) && n < |messages|
    ensures messages[n].Assistant? ==> FateAt(p, tools, messages, n) == Signed
  {}

  /**
    Hide a run that makes a turn, from a request that skipped nothing, or insert one: if the signed
    turns of either request lead, those signed in both are a leading run of what lies before the run,
    and none lies after it.
   */
  lemma SurvivorsOfHidingLead(
      p: Provider, tools: seq<ToolSchema>, before: seq<Message>, mid: seq<Message>, after: seq<Message>)
    requires Injective(p.fingerprint) && HasATurn(mid) && SkippedIn(p, tools, before + mid + after) == 0
    requires LeadingRun(p, tools, before + mid + after) || LeadingRun(p, tools, before + after)
    ensures forall i, j :: 0 <= i < j < |before| && before[i].Assistant?
                           && Survives(p, tools, before + mid + after, j, before + after, j) ==>
              Survives(p, tools, before + mid + after, i, before + after, i)
    ensures forall at :: 0 <= at < |after| && after[at].Assistant? ==>
              !Survives(p, tools, before + mid + after, |before + mid| + at, before + after, |before| + at)
  {
    var a, b := before + mid + after, before + after;
    forall i, j | 0 <= i < j < |before| && before[i].Assistant? && Survives(p, tools, a, j, b, j)
      ensures Survives(p, tools, a, i, b, i)
    {
      BeforeAHidingSurvivor(p, tools, before, mid, after, i, j);
    }
    forall at | 0 <= at < |after| && after[at].Assistant?
      ensures !Survives(p, tools, a, |before + mid| + at, b, |before| + at)
    {
      HidingARunUnsignsTheRest(p, tools, before, mid, after, at);
    }
  }

  lemma BeforeAHidingSurvivor(
      p: Provider, tools: seq<ToolSchema>, before: seq<Message>, mid: seq<Message>, after: seq<Message>, i: nat, j: nat)
    requires Injective(p.fingerprint) && i < j < |before| && before[i].Assistant?
    requires LeadingRun(p, tools, before + mid + after) || LeadingRun(p, tools, before + after)
    requires Survives(p, tools, before + mid + after, j, before + after, j)
    ensures Survives(p, tools, before + mid + after, i, before + after, i)
  {
    NothingMore(before);
    CutBefore(before, mid, after, j);
    CutBefore(before, [], after, j);
    SignedMeansSamePrefix(p, tools, before + mid + after, j, before + after, j);
    FateBefore(p, tools, before, mid, [], after, i);
  }

  // ---- an edit that leaves no leading run -------------------------------------------------------------

  /** A reply of one text, retained with `thinking` before it. */
  function Retained(thinking: seq<Block>, text: string, digest: string): Message {
    Assistant(Some(text), None, [], Some(Replay(PROTOCOL, digest, thinking + [Text(text)])))
  }

  const QUESTION: Message := User("a", None)
  const ANSWER: Message := Assistant(Some("b"), None, [], None)
  const FOLLOW_UP: Message := User("c", None)

  /** The turns up to the follow-up. */
  function Opening(): seq<Turn> {
    [Turn(FromUser, [Text("a")]), Turn(FromAssistant, [Text("b")]), Turn(FromUser, [Text("c")])]
  }

  /** The answer, and the reply to the follow-up, each retained under the digest of its own request. */
  function FirstReply(p: Provider, tools: seq<ToolSchema>): Message {
    Retained([], "b", p.fingerprint(Prefix(Absent, tools, Opening()[..1])))
  }

  function SecondReply(p: Provider, tools: seq<ToolSchema>): Message {
    Retained([Thinking("t", "s")], "x", p.fingerprint(Prefix(Absent, tools, Opening())))
  }

  lemma RetainedIsSigned(
      p: Provider, system: SystemValue, tools: seq<ToolSchema>, turns: seq<Turn>, thinking: seq<Block>,
      text: string)
    requires thinking == [] || thinking == [Thinking("t", "s")]
    requires p.enveloped(Retained(thinking, text, p.fingerprint(Prefix(system, tools, turns))).replay.value)
    ensures FateOf(p, system, tools, turns, Retained(thinking, text, p.fingerprint(Prefix(system, tools, turns))))
            == Signed
  {
    var blocks := thinking + [Text(text)];
    NothingMore(text);
    NothingMore([Text(text)]);
    assert [Text(text)][1..] == [];
    assert Spoken([Text(text)]) == text + Spoken([]) && Uses([Text(text)]) == [] + Uses([]);
    if thinking != [] {
      assert blocks[1..] == [Text(text)];
    }
  }

  /** Signed or neutral, the answer is sent as its one text. */
  lemma FateOfTheAnswer(p: Provider, tools: seq<ToolSchema>, answer: Message)
    requires answer == ANSWER || (answer == FirstReply(p, tools) && p.enveloped(answer.replay.value))
    ensures FateOf(p, Absent, tools, Opening()[..1], answer) == (if answer == ANSWER then Neutral else Signed)
  {
    if answer != ANSWER {
      RetainedIsSigned(p, Absent, tools, Opening()[..1], [], "b");
    }
  }

  /** Either way the answer is sent, the follow-up is judged against the same turns. */
  lemma OpeningIs(p: Provider, tools: seq<ToolSchema>, answer: Message)
    requires answer == ANSWER || (answer == FirstReply(p, tools) && p.enveloped(answer.replay.value))
    ensures Before(p, Absent, tools, [QUESTION]) == Opening()[..1]
    ensures Before(p, Absent, tools, [QUESTION, answer, FOLLOW_UP]) == Opening()
  {
    FoldLast(p, Absent, tools, [], QUESTION);
    assert [] + [QUESTION] == [QUESTION];
    FoldLast(p, Absent, tools, [QUESTION], answer);
    assert [QUESTION] + [answer] == [QUESTION, answer];
    FoldLast(p, Absent, tools, [QUESTION, answer], FOLLOW_UP);
    assert [QUESTION, answer] + [FOLLOW_UP] == [QUESTION, answer, FOLLOW_UP];
    FateOfTheAnswer(p, tools, answer);
    NothingMore([Text("b")]);
    assert Flush(Fold(p, Absent, tools, [QUESTION])).turns == Opening()[..1];
    assert [] + [Text("b")] == [Text("b")];
    assert Fold(p, Absent, tools, [QUESTION, answer]).turns == Opening()[..2];
  }

  /** A conversation in which `answer` and the reply to the follow-up are the assistant turns. */
  function Exchange(p: Provider, tools: seq<ToolSchema>, answer: Message): seq<Message> {
    [QUESTION, answer, FOLLOW_UP, SecondReply(p, tools)]
  }

  lemma ExchangeHasNoSystem(p: Provider, tools: seq<ToolSchema>, answer: Message)
    requires !answer.System?
    ensures SystemParts(Exchange(p, tools, answer)) == []
  {
    assert Exchange(p, tools, answer) == [QUESTION] + [answer] + [FOLLOW_UP] + [SecondReply(p, tools)];
    SystemPartsConcat([QUESTION] + [answer] + [FOLLOW_UP], [SecondReply(p, tools)]);
    SystemPartsConcat([QUESTION] + [answer], [FOLLOW_UP]);
    SystemPartsConcat([QUESTION], [answer]);
  }

  lemma ExchangeFates(p: Provider, tools: seq<ToolSchema>, answer: Message)
    requires p.enveloped(FirstReply(p, tools).replay.value) && p.enveloped(SecondReply(p, tools).replay.value)
    requires answer == ANSWER || answer == FirstReply(p, tools)
    ensures FateAt(p, tools, Exchange(p, tools, answer), 1) == (if answer == ANSWER then Neutral else Signed)
    ensures FateAt(p, tools, Exchange(p, tools, answer), 3) == Signed
  {
    var all := Exchange(p, tools, answer);
    assert all[..1] == [QUESTION] && all[..2] == [QUESTION, answer] && all[..3] == [QUESTION, answer, FOLLOW_UP];
    assert all == all[..3] + [all[3]];
    assert CanonicalSystem(all) == Absent by {
      ExchangeHasNoSystem(p, tools, answer);
    }
    OpeningIs(p, tools, answer);
    RetainedIsSigned(p, Absent, tools, Opening(), [Thinking("t", "s")], "x");
    RetainedIsSigned(p, Absent, tools, Opening()[..1], [], "b");
  }

  /**
    What is signed need not be a leading run, even after one edit of a conversation sent all signed:
    drop the replay of a first answer that was one text, and it is sent neutrally as the same turn,
    with the later reply still signed.
   */
  lemma SignedTurnsNeedNotLead(p: Provider, tools: seq<ToolSchema>)
    requires p.enveloped(FirstReply(p, tools).replay.value) && p.enveloped(SecondReply(p, tools).replay.value)
    ensures AllSigned(p, tools, Exchange(p, tools, FirstReply(p, tools)))
    ensures FateAt(p, tools, Exchange(p, tools, ANSWER), 1) == Neutral
    ensures FateAt(p, tools, Exchange(p, tools, ANSWER), 3) == Signed
    ensures !LeadingRun(p, tools, Exchange(p, tools, ANSWER))
  {
    ExchangeFates(p, tools, FirstReply(p, tools));
    ExchangeFates(p, tools, ANSWER);
  }
}
