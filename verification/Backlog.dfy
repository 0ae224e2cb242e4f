/** The archive task's own bookkeeping and the pump's drain loop, as the adapter updates them. */
module Backlog {
  import opened Wrappers
  import opened Capture

  const U64_MAX: nat := 0xFFFF_FFFF_FFFF_FFFF

  /** What one archive task owns, apart from its sink and its channels. */
  class Backlog {
    const limits: Limits
    var known: Option<Verdict>
    var retained: nat
    var failure: Option<Reason>
    var ended: Option<Reason>
    /** The flag shared with the pump. */
    var disabled: bool

    constructor (limits: Limits)
      ensures this.limits == limits && View() == NewStream(limits).books && !disabled
    {
      this.limits := limits;
      known, retained, failure, ended, disabled := None, 0, None, None, false;
    }

    function View(): Books
      reads this
    {
      Books(known, retained, failure, ended)
    }

    method Fail(reason: Reason)
      modifies this
      ensures View() == old(View()).Fail(reason) && failure.Some? && disabled
    {
      if failure.None? {
        failure := Some(reason);
      }
      disabled := true;
    }

    method Note(message: Staged)
      modifies this
      ensures View() == old(View()).Note(message)
      ensures disabled == (old(disabled) || message.Stopped?)
    {
      match message {
        case Bytes(_) =>
        case Stopped(reason) => Fail(reason);
        case Ended(reason) => ended := Some(reason);
      }
    }

    method PollVerdict(link: Link, now: nat)
      modifies this`known
      ensures View() == old(View()).Poll(link, now, limits.deadline)
      ensures old(known).Some? ==> known == old(known)
      ensures known.None? ==> link.Unsent?
      ensures old(known).None? && link.Sent? ==> known == Some(link.verdict)
      ensures old(known).None? && link.Gone? ==> known == Some(Verdict(Some(Cancelled), now + limits.deadline))
    {
      if known.Some? {
        return;
      }
      match link {
        case Sent(verdict) => known := Some(verdict);
        case Gone => known := Some(Verdict(Some(Cancelled), now + limits.deadline));
        case Unsent =>
      }
    }

    /**
      Writes one staged chunk at time `now`; `outcome` is what awaiting the sink's write gives.
      `take` is how much the sink was asked to write.
     */
    method Write(bytes: seq<Byte>, now: nat, outcome: Outcome) returns (take: nat)
      requires bytes != [] && retained <= limits.streamBytes
      modifies this
      ensures retained <= limits.streamBytes && known == old(known) && ended == old(ended)
      ensures match old(View()).Begin(limits, now, bytes)
              case Dropped(books) => take == 0 && View() == books
              case Started(size, _) => take == size && View() == old(View()).End(bytes, size, outcome)
      ensures disabled <==> old(disabled) || (old(failure).None? && failure.Some?)
      // a write in time, before any verdict settles, keeps what fits, and reports a quota exactly when
      // something did not
      ensures old(failure).None? && outcome.Done? && (old(known).None? || now < old(known).value.settleBy) ==>
                && retained == Min(limits.streamBytes, old(retained) + |bytes|)
                && failure == if limits.streamBytes < old(retained) + |bytes| then Some(Quota) else None
      // nothing is asked of the sink after a failure, past the limit, or past the settlement time
      ensures 0 < take ==> old(failure).None? && old(retained) + take <= limits.streamBytes
      ensures 0 < take && old(known).Some? ==> now < old(known).value.settleBy
    {
      take := 0;
      if failure.Some? {
        return;
      }
      var room := Less(limits.streamBytes, retained);
      var kept := Min(room, |bytes|);
      if kept != 0 {
        var limit := View().WriteLimit(now, limits.deadline);
        if limit.None? {
          Fail(Timeout);
          return;
        }
        take := kept;
        match outcome {
          case Done => retained := retained + kept;
          case Refused(reason) =>
            Fail(reason);
            return;
          case Overdue =>
            Fail(Timeout);
            return;
        }
      }
      if kept < |bytes| {
        Fail(Quota);
      }
    }
  }

  /** What a stream's preview ends up as. */
  datatype Captured = Captured(text: seq<Byte>, truncated: bool, totalBytes: nat)

  function Joined(chunks: seq<seq<Byte>>): seq<Byte> {
    if chunks == [] then [] else Joined(chunks[..|chunks| - 1]) + chunks[|chunks| - 1]
  }

  method AppendCapped(stored: seq<Byte>, bytes: seq<Byte>, cap: nat) returns (kept: seq<Byte>)
    requires |stored| <= cap
    ensures kept == (stored + bytes)[..Min(cap, |stored| + |bytes|)]
  {
    var take := Min(Less(cap, |stored|), |bytes|);
    kept := stored + bytes[..take];
  }

  /**
    Drains a pipe that yields `chunks`. The preview is the pipe's first `cap` bytes, whatever the
    chunk sizes; the archive is handed every chunk, uncut; and the preview says it was truncated
    exactly when the pipe held more than the cap.
   */
  method Drain(chunks: seq<seq<Byte>>, cap: nat) returns (captured: Captured, handed: seq<seq<Byte>>)
    requires 0 < cap <= U64_MAX
    requires forall k :: 0 <= k < |chunks| ==> 0 < |chunks[k]| <= READ_CHUNK
    ensures handed == chunks
    ensures captured.text == Joined(chunks)[..Min(cap, |Joined(chunks)|)]
    ensures captured.totalBytes == Min(U64_MAX, |Joined(chunks)|)
    ensures captured.truncated <==> cap < Min(U64_MAX, |Joined(chunks)|)
  {
    var stored, total := [], 0;
    handed := [];
    for i := 0 to |chunks|
      invariant handed == chunks[..i]
      invariant stored == Joined(chunks[..i])[..Min(cap, |Joined(chunks[..i])|)]
      invariant total == Min(U64_MAX, |Joined(chunks[..i])|)
    {
      assert chunks[..i + 1][..i] == chunks[..i];
      total := Min(U64_MAX, total + |chunks[i]|);
      handed := handed + [chunks[i]];
      stored := AppendCapped(stored, chunks[i], cap);
    }
    assert chunks[..|chunks|] == chunks;
    captured := Captured(stored, |stored| < total, total);
  }
}
