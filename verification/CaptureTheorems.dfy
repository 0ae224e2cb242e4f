/** The promises of the evidence archive, each for every run of the protocol. */
module CaptureTheorems {
  import opened Wrappers
  import opened Capture
  import opened CaptureProofs

  // ---- what a receipt of "end of file" means ----------------------------------------------------

  lemma FinalReceipt(limits: Limits, st: Stream)
    requires Inv(limits, st) && IsFinal(st.sink)
    ensures st.sink.receipt.reason == Eof <==>
              && st.history.accepted == st.history.read
              && st.history.how == Some(Eof)
              && st.link.Sent? && st.link.verdict.reason.None?
  {
    if st.books.failure.None? {
      assert !st.disabled;
      assert st.history.accepted + AtSink(st.sink) + Payload(st.channel) == st.history.accepted;
      assert !st.history.skipped ==> st.history.read == st.history.staged + [] == st.history.staged;
    }
  }

  /**
    A receipt says end of file exactly when every byte the pipe held was read and accepted, the
    pump saw the pipe end, and the engine's own verdict found nothing wrong. So an abort, a stall,
    a quota, a failed or overdue write, a read error and a cancellation each exclude it.
   */
  lemma EndOfFileMeansAll(limits: Limits, events: seq<Event>, side: Side)
    requires Run(limits, events) && IsFinal(After(limits, events).Of(side).sink)
    ensures var st := After(limits, events).Of(side);
            && st.sink.receipt.observed == |st.history.read|
            && st.books.retained == |st.history.accepted|
            && (st.sink.receipt.reason == Eof <==>
                  && st.history.accepted == st.history.read
                  && st.history.how == Some(Eof)
                  && st.link.Sent? && st.link.verdict.reason.None?)
  {
    RunKeeps(limits, events);
    FinalReceipt(limits, After(limits, events).Of(side));
  }

  /** What the engine reports is what the sink finalized to; nothing else is ever reported. */
  lemma ReportedReceiptIsTheSinks(limits: Limits, events: seq<Event>, side: Side)
    requires Run(limits, events) && After(limits, events).Of(side).collected.Receipted?
    ensures var st := After(limits, events).Of(side);
            && st.sink == Finalized(st.collected.receipt)
            && (st.collected.receipt.reason == Eof ==> st.history.accepted == st.history.read)
  {
    RunKeeps(limits, events);
    FinalReceipt(limits, After(limits, events).Of(side));
  }

  // ---- no gap -----------------------------------------------------------------------------------

  /** What the sink took, in time or late, is at every moment a prefix of the pipe, within the limit. */
  lemma ArchiveIsAPrefix(limits: Limits, events: seq<Event>, side: Side)
    requires Run(limits, events)
    ensures var st := After(limits, events).Of(side);
            && st.history.accepted + st.history.late <= st.history.staged <= st.history.read
            && |st.history.accepted| <= limits.streamBytes
  {
    RunKeeps(limits, events);
    var st := After(limits, events).Of(side);
    assert st.history.accepted + [] == st.history.accepted;
  }

  /** What one moment of a stream says about every later one. */
  predicate Leads(st: Stream, st': Stream) {
    var h, h' := st.history, st'.history;
    && h.read <= h'.read && h.staged <= h'.staged && h.accepted <= h'.accepted
    && (h.skipped ==> h'.skipped && h'.staged == h.staged)
    && (st.books.failure.Some? ==>
          st'.books.failure == st.books.failure && h'.accepted == h.accepted && h'.started == h.started)
    && (IsFinal(st.sink) ==>
          && IsFinal(st'.sink) && st'.sink.receipt == st.sink.receipt
          && h'.read == h.read && h'.accepted == h.accepted && h'.late == h.late && h'.started == h.started)
  }

  lemma PumpLeads(limits: Limits, now: nat, action: PumpAction, l: Local)
    requires Inv(limits, l.st) && CanPump(now, action, l)
    ensures Leads(l.st, NextPump(now, action, l).st)
  {}

  lemma TaskLeads(limits: Limits, now: nat, action: SinkAction, l: Local)
    requires Inv(limits, l.st) && CanTask(now, action, l)
    ensures Leads(l.st, NextTask(limits, now, action, l).st)
  {}

  lemma EngineLeads(limits: Limits, now: nat, action: EngineAction, l: Local)
    requires Inv(limits, l.st) && CanEngine(limits, now, action, l)
    ensures Leads(l.st, NextEngine(limits, now, action, l).st)
  {}

  lemma StepLeads(limits: Limits, s: State, event: Event, side: Side)
    requires GlobalInv(limits, s) && Legal(limits, s, event)
    ensures Leads(s.Of(side), Apply(limits, s, event).Of(side))
  {
    if event.On? && event.side == side {
      var l := Local(s.Of(side), s.room);
      match event.action
      case Pump(action) => PumpLeads(limits, s.now, action, l);
      case Task(action) => TaskLeads(limits, s.now, action, l);
      case Engine(action) => EngineLeads(limits, s.now, action, l);
    }
  }

  lemma {:induction false} Extends(limits: Limits, events: seq<Event>, more: seq<Event>)
    requires Run(limits, events + more)
    ensures Run(limits, events)
  {
    if more != [] {
      assert (events + more)[..|events + more| - 1] == events + more[..|more| - 1];
      Extends(limits, events, more[..|more| - 1]);
    } else {
      assert events + more == events;
    }
  }

  /**
    However a run goes on: nothing archived is taken back; once the pump has let a chunk go it
    never stages again; once the sink has failed it never starts another write or counts another
    byte; and once it is finalized no write is started and its receipt stands.
   */
  lemma {:induction false} NothingFollowsAGap(limits: Limits, events: seq<Event>, more: seq<Event>, side: Side)
    requires Run(limits, events + more)
    ensures Run(limits, events)
    ensures Leads(After(limits, events).Of(side), After(limits, events + more).Of(side))
  {
    Extends(limits, events, more);
    if more == [] {
      assert events + more == events;
    } else {
      var all := events + more;
      var before := all[..|all| - 1];
      assert before == events + more[..|more| - 1];
      NothingFollowsAGap(limits, events, more[..|more| - 1], side);
      RunKeeps(limits, before);
      StepLeads(limits, After(limits, before), all[|all| - 1], side);
    }
  }

  // ---- memory -------------------------------------------------------------------------------------

  /**
    Permits are conserved across both streams, so staged memory never passes the budget, and a
    waiting pump is always held back by permits that are out and whose return would admit it.
   */
  lemma PermitsAreConserved(limits: Limits, events: seq<Event>, side: Side)
    requires Run(limits, events)
    ensures var s := After(limits, events);
            && s.room + Held(s.out) + Held(s.err) == limits.Budget()
            && limits.Budget() == (if limits.stagingBytes < 2 * READ_CHUNK then READ_CHUNK else limits.stagingBytes / 2)
            && |Payload(s.out.channel)| + |Payload(s.err.channel)| <= limits.Budget()
            && (2 * READ_CHUNK <= limits.stagingBytes ==> 2 * (Held(s.out) + Held(s.err)) <= limits.stagingBytes)
            && (s.Of(side).pump.Waiting? && s.room < |s.Of(side).pump.bytes| ==>
                  && 0 < Held(s.out) + Held(s.err)
                  && |s.Of(side).pump.bytes| <= s.room + Held(s.out) + Held(s.err))
  {
    RunKeeps(limits, events);
  }

  // ---- time ---------------------------------------------------------------------------------------

  predicate CountedBy(st: Stream, settleBy: nat) {
    (st.history.countedAt.Some? ==> st.history.countedAt.value <= settleBy)
    && (st.sink.Writing? ==> st.sink.expires <= settleBy)
  }

  predicate OnTime(limits: Limits, st: Stream, now: nat) {
    && Timely(st, now)
    && (st.history.countedAt.Some? ==> st.history.countedAt.value <= now)
    && (st.link.Sent? ==> CountedBy(st, st.link.verdict.settleBy))
    && (st.books.known.Some? ==> CountedBy(st, st.books.known.value.settleBy))
    && (!st.link.Sent? && st.sink.Writing? ==> st.sink.expires <= now + limits.deadline)
    && st.history.stalled + st.stallLeft == limits.Stall()
    && (st.pump.Waiting? ==> st.pump.since <= now)
  }

  lemma PumpOnTime(limits: Limits, now: nat, action: PumpAction, l: Local)
    requires OnTime(limits, l.st, now) && CanPump(now, action, l) && Timely(NextPump(now, action, l).st, now)
    ensures OnTime(limits, NextPump(now, action, l).st, now)
  {}

  lemma WritingOnTime(limits: Limits, now: nat, action: SinkAction, l: Local)
    requires Knows(l.st) && OnTime(limits, l.st, now) && CanTask(now, action, l) && (action.Handle? || action.Complete?)
    requires Timely(NextTask(limits, now, action, l).st, now)
    ensures OnTime(limits, NextTask(limits, now, action, l).st, now)
  {}

  lemma TaskOnTime(limits: Limits, now: nat, action: SinkAction, l: Local)
    requires OnTime(limits, l.st, now) && CanTask(now, action, l) && !action.Handle? && !action.Complete?
    ensures OnTime(limits, NextTask(limits, now, action, l).st, now)
  {}

  lemma EngineOnTime(limits: Limits, now: nat, action: EngineAction, l: Local)
    requires Knows(l.st) && OnTime(limits, l.st, now) && CanEngine(limits, now, action, l)
    ensures OnTime(limits, NextEngine(limits, now, action, l).st, now)
  {}

  lemma {:induction false} TimedRunIsOnTime(limits: Limits, events: seq<Event>, side: Side)
    requires TimedRun(limits, events)
    ensures OnTime(limits, After(limits, events).Of(side), After(limits, events).now)
  {
    if events != [] {
      var before := events[..|events| - 1];
      TimedRunIsOnTime(limits, before, side);
      RunKeeps(limits, before);
      StepOnTime(limits, After(limits, before), events[|events| - 1], side);
    }
  }

  lemma StepOnTime(limits: Limits, s: State, event: Event, side: Side)
    requires Legal(limits, s, event) && Knows(s.Of(side)) && OnTime(limits, s.Of(side), s.now)
    requires Timely(Apply(limits, s, event).Of(side), Apply(limits, s, event).now)
    ensures OnTime(limits, Apply(limits, s, event).Of(side), Apply(limits, s, event).now)
  {
    if event.On? && event.side == side {
      var l := Local(s.Of(side), s.room);
      match event.action
      case Pump(action) => PumpOnTime(limits, s.now, action, l);
      case Task(action) =>
        if action.Handle? || action.Complete? {
          WritingOnTime(limits, s.now, action, l);
        } else {
          TaskOnTime(limits, s.now, action, l);
        }
      case Engine(action) => EngineOnTime(limits, s.now, action, l);
    }
  }

  /**
    With timers handled when they are due, no byte is counted after the verdict's settlement
    time, one deadline after the verdict, whether its write began before or after the verdict.
   */
  lemma NothingCountsAfterSettlement(limits: Limits, events: seq<Event>, side: Side)
    requires TimedRun(limits, events) && After(limits, events).Of(side).link.Sent?
    ensures var st := After(limits, events).Of(side);
            st.history.countedAt.Some? ==> st.history.countedAt.value <= st.link.verdict.settleBy
  {
    TimedRunIsOnTime(limits, events, side);
  }

  /** A pump waits for the archive for at most one allowance in all, less than the drain grace. */
  lemma StallIsBounded(limits: Limits, events: seq<Event>, side: Side)
    requires TimedRun(limits, events)
    ensures var s := After(limits, events);
            var st := s.Of(side);
            st.history.stalled + (if st.pump.Waiting? then s.now - st.pump.since else 0)
              <= Min(limits.deadline, STALL_MAX) < DRAIN_GRACE
  {
    TimedRunIsOnTime(limits, events, side);
  }

  /** A pump has used up no more of its allowance than it has waited. */
  predicate Waited(limits: Limits, st: Stream) {
    Min(limits.deadline, 1_000) <= st.history.stalled + st.stallLeft
  }

  lemma StepWaits(limits: Limits, s: State, event: Event, side: Side)
    requires Legal(limits, s, event) && Waited(limits, s.Of(side))
    ensures Waited(limits, Apply(limits, s, event).Of(side))
    ensures event == On(side, Pump(Stall)) ==>
              Min(limits.deadline, 1_000) <= Apply(limits, s, event).Of(side).history.stalled
  {
    if event.On? && event.side == side {
      var l := Local(s.Of(side), s.room);
      match event.action
      case Pump(action) => PumpWaits(limits, s.now, action, l);
      case Task(action) => TaskWaits(limits, s.now, action, l);
      case Engine(action) =>
    }
  }

  lemma PumpWaits(limits: Limits, now: nat, action: PumpAction, l: Local)
    requires CanPump(now, action, l) && Waited(limits, l.st)
    ensures Waited(limits, NextPump(now, action, l).st)
    ensures action.Stall? ==> Min(limits.deadline, 1_000) <= NextPump(now, action, l).st.history.stalled
  {}

  lemma TaskWaits(limits: Limits, now: nat, action: SinkAction, l: Local)
    requires CanTask(now, action, l) && Waited(limits, l.st)
    ensures Waited(limits, NextTask(limits, now, action, l).st)
  {}

  lemma {:induction false} RunWaits(limits: Limits, events: seq<Event>, side: Side)
    requires Run(limits, events)
    ensures Waited(limits, After(limits, events).Of(side))
  {
    if events != [] {
      var before := events[..|events| - 1];
      RunWaits(limits, before, side);
      StepWaits(limits, After(limits, before), events[|events| - 1], side);
    }
  }

  /** In every run, a pump gives up for want of room only once it has waited its whole allowance, in all. */
  lemma StallsUseTheWholeAllowance(limits: Limits, events: seq<Event>, side: Side)
    requires Run(limits, events + [On(side, Pump(Stall))])
    ensures Min(limits.deadline, 1_000) <= After(limits, events + [On(side, Pump(Stall))]).Of(side).history.stalled
  {
    var all := events + [On(side, Pump(Stall))];
    assert all[..|all| - 1] == events;
    RunWaits(limits, events, side);
    StepWaits(limits, After(limits, events), On(side, Pump(Stall)), side);
  }

  /** `events[k]` gave the verdict a stream has, to settle one deadline later. */
  predicate GaveIt(limits: Limits, events: seq<Event>, k: nat, side: Side, verdict: Verdict)
    requires k < |events| && Run(limits, events[..k])
  {
    && events[k] == On(side, Engine(GiveVerdict(verdict.reason)))
    && verdict.settleBy == After(limits, events[..k]).now + limits.deadline
  }

  /** In every run a verdict that was sent was given by one step, and settles exactly one deadline after it. */
  lemma {:induction false} VerdictsSettleOneDeadlineLater(limits: Limits, events: seq<Event>, side: Side)
    returns (k: nat)
    requires Run(limits, events) && After(limits, events).Of(side).link.Sent?
    ensures k < |events| && Run(limits, events[..k])
    ensures GaveIt(limits, events, k, side, After(limits, events).Of(side).link.verdict)
  {
    var n := |events| - 1;
    var before, last := events[..n], events[n];
    var st := After(limits, before).Of(side);
    if st.link.Sent? {
      k := VerdictsSettleOneDeadlineLater(limits, before, side);
      assert before[..k] == events[..k] && before[k] == events[k];
      LinkStands(limits, After(limits, before), last, side);
    } else {
      k := n;
      VerdictIsGiven(limits, After(limits, before), last, side);
    }
  }

  lemma LinkStands(limits: Limits, s: State, event: Event, side: Side)
    requires Legal(limits, s, event) && s.Of(side).link.Sent?
    ensures Apply(limits, s, event).Of(side).link == s.Of(side).link
  {
    if event.On? && event.side == side {
      match event.action
      case Pump(action) => LinkIsNotThePumps(limits, s.now, action, Local(s.Of(side), s.room));
      case Task(action) => LinkIsNotTheTasks(limits, s.now, action, Local(s.Of(side), s.room));
      case Engine(action) =>
    }
  }

  lemma VerdictIsGiven(limits: Limits, s: State, event: Event, side: Side)
    requires Legal(limits, s, event) && !s.Of(side).link.Sent? && Apply(limits, s, event).Of(side).link.Sent?
    ensures event == On(side, Engine(GiveVerdict(Apply(limits, s, event).Of(side).link.verdict.reason)))
    ensures Apply(limits, s, event).Of(side).link.verdict.settleBy == s.now + limits.deadline
  {
    if event.On? && event.side == side {
      match event.action
      case Pump(action) => LinkIsNotThePumps(limits, s.now, action, Local(s.Of(side), s.room));
      case Task(action) => LinkIsNotTheTasks(limits, s.now, action, Local(s.Of(side), s.room));
      case Engine(action) =>
    }
  }

  lemma LinkIsNotThePumps(limits: Limits, now: nat, action: PumpAction, l: Local)
    requires CanPump(now, action, l)
    ensures NextPump(now, action, l).st.link == l.st.link
  {}

  lemma LinkIsNotTheTasks(limits: Limits, now: nat, action: SinkAction, l: Local)
    requires CanTask(now, action, l)
    ensures NextTask(limits, now, action, l).st.link == l.st.link
  {}

  // ---- finalizing ---------------------------------------------------------------------------------

  /** A sink is finalized at most once, and only after every write it was given has finished. */
  lemma FinalizedOnceAndLast(limits: Limits, events: seq<Event>, side: Side)
    requires Run(limits, events)
    ensures var st := After(limits, events).Of(side);
            && st.history.finalizations <= 1
            && (st.history.finalizations == 1 <==> IsFinal(st.sink))
            && (IsFinal(st.sink) ==> st.history.started == st.history.completed && st.pump.Over? && st.channel == [])
  {
    RunKeeps(limits, events);
  }

  /** How much a sink's task still has to do once its pump has ended. */
  function Work(st: Stream): nat {
    5 * |st.channel| +
    match st.sink
    case Finalized(_) => 0
    case Finalizing(_) => 1
    case Settling => 2
    case Idle => 3
    case Outlasting(_, _) => 5
    case Writing(_, _, _) => 6
    case Received(_) => 7
  }

  /** A task that can still act, when its pump has ended and the engine has spoken or gone. */
  function Duty(st: Stream): SinkAction {
    match st.sink
    case Idle => if st.channel == [] then Drained else Receive
    case Received(_) => Handle
    case Writing(_, _, _) => Complete
    case Outlasting(_, _) => LateDone(true)
    case Settling => Settle
    case _ => Finalize
  }

  lemma WorkFalls(limits: Limits, now: nat, action: SinkAction, l: Local)
    requires l.st.pump.Over? && CanTask(now, action, l)
    ensures Work(NextTask(limits, now, action, l).st) < Work(l.st) && NextTask(limits, now, action, l).st.pump.Over?
  {}

  /** The pump has ended and the verdict was given or abandoned. */
  predicate Finishing(st: Stream) {
    st.pump.Over? && !st.link.Unsent?
  }

  /**
    The task never gets stuck and never runs for ever: with the pump ended and the verdict given or
    abandoned it can always act until it has finalized, and every act leaves less work.
   */
  lemma TheTaskIsNeverStuck(limits: Limits, events: seq<Event>, side: Side)
    requires Run(limits, events) && Finishing(After(limits, events).Of(side))
    ensures var s := After(limits, events);
            var l := Local(s.Of(side), s.room);
            && (!l.st.sink.Finalized? ==> CanTask(s.now, Duty(l.st), l))
            && (forall action | CanTask(s.now, action, l) ::
                  && Work(NextTask(limits, s.now, action, l).st) < Work(l.st)
                  && NextTask(limits, s.now, action, l).st.pump.Over?)
            && (Work(l.st) == 0 <==> l.st.sink.Finalized?)
  {
    RunKeeps(limits, events);
    var s := After(limits, events);
    var l := Local(s.Of(side), s.room);
    forall action | CanTask(s.now, action, l)
      ensures Work(NextTask(limits, s.now, action, l).st) < Work(l.st)
      ensures NextTask(limits, s.now, action, l).st.pump.Over?
    {
      WorkFalls(limits, s.now, action, l);
    }
  }

  // ---- runs that end ------------------------------------------------------------------------------

  lemma OneMore(limits: Limits, events: seq<Event>, event: Event)
    requires Run(limits, events) && Legal(limits, After(limits, events), event)
    ensures Run(limits, events + [event])
    ensures After(limits, events + [event]) == Apply(limits, After(limits, events), event)
  {
    var all := events + [event];
    assert all[..|all| - 1] == events;
  }

  predicate EndsFinalized(limits: Limits, events: seq<Event>, more: seq<Event>, side: Side) {
    Run(limits, events + more) && After(limits, events + more).Of(side).sink.Finalized?
  }

  /** Once the pump has ended and the verdict is given or abandoned, the task alone carries a run to its end. */
  lemma {:induction false} TheTaskCanFinish(limits: Limits, events: seq<Event>, side: Side) returns (more: seq<Event>)
    requires Run(limits, events) && Finishing(After(limits, events).Of(side))
    ensures EndsFinalized(limits, events, more, side)
    decreases Work(After(limits, events).Of(side))
  {
    var st := After(limits, events).Of(side);
    if st.sink.Finalized? {
      more := [];
      NothingMore(events);
    } else {
      TheTaskIsNeverStuck(limits, events, side);
      var event := On(side, Task(Duty(st)));
      OneMore(limits, events, event);
      var rest := TheTaskCanFinish(limits, events + [event], side);
      more := [event] + rest;
      Regrouped(events, [event], rest);
    }
  }

  /** The pump was told to abort and the verdict was given or abandoned. */
  predicate Aborted(st: Stream) {
    st.aborting && !st.link.Unsent?
  }

  /** How many steps a pump that was told to abort is from its end, when each is the next one it can take. */
  function StepsLeft(pump: Pump): nat {
    match pump
    case Over => 0
    case Reading => 1
    case Waiting(_, _) => 1
    case Stopping(_) => 2
    case Cleared(_) => 2
    case Holding(_) => 3
    case Admitted(_) => 4
    case Counted(_) => 5
  }

  function WayOut(pump: Pump): PumpAction {
    match pump
    case Counted(_) => Check
    case Admitted(_) => Acquire
    case Holding(_) => Recheck
    case Cleared(_) => Send
    case Stopping(_) => TellStop
    case _ => Abort
  }

  /** However long its pipe, a pump that was told to abort can end. */
  lemma {:induction false} ThePumpCanEnd(limits: Limits, events: seq<Event>, side: Side) returns (more: seq<Event>)
    requires Run(limits, events) && Aborted(After(limits, events).Of(side))
    ensures Run(limits, events + more) && Finishing(After(limits, events + more).Of(side))
    decreases StepsLeft(After(limits, events).Of(side).pump)
  {
    var st := After(limits, events).Of(side);
    if st.pump.Over? {
      more := [];
      NothingMore(events);
    } else {
      var event := On(side, Pump(WayOut(st.pump)));
      OneMore(limits, events, event);
      var rest := ThePumpCanEnd(limits, events + [event], side);
      more := [event] + rest;
      Regrouped(events, [event], rest);
    }
  }

  lemma TheEngineCanLeave(limits: Limits, events: seq<Event>, side: Side) returns (more: seq<Event>)
    requires Run(limits, events)
    ensures Run(limits, events + more) && Aborted(After(limits, events + more).Of(side))
  {
    more := [On(side, Engine(AbortPump))];
    OneMore(limits, events, On(side, Engine(AbortPump)));
    if After(limits, events + more).Of(side).link.Unsent? {
      OneMore(limits, events + more, On(side, Engine(Leave)));
      Regrouped(events, more, [On(side, Engine(Leave))]);
      more := more + [On(side, Engine(Leave))];
    }
  }

  /** Every run, wherever it stands, can go on to a finalized sink: no interleaving leaves a stream stuck. */
  lemma FinalizationIsReachable(limits: Limits, events: seq<Event>, side: Side)
    requires Run(limits, events)
    ensures exists more :: EndsFinalized(limits, events, more, side)
  {
    var start := TheEngineCanLeave(limits, events, side);
    var middle := ThePumpCanEnd(limits, events + start, side);
    var end := TheTaskCanFinish(limits, events + start + middle, side);
    Regrouped(events, start, middle);
    Regrouped(events, start + middle, end);
    assert EndsFinalized(limits, events, start + middle + end, side);
  }

  function TaskSteps(events: seq<Event>, side: Side): nat {
    if events == [] then 0
    else
      var last := events[|events| - 1];
      TaskSteps(events[..|events| - 1], side) + (if last.On? && last.side == side && last.action.Task? then 1 else 0)
  }

  lemma OthersLeaveTheWork(limits: Limits, s: State, event: Event, side: Side)
    requires Legal(limits, s, event) && Finishing(s.Of(side))
    requires !(event.On? && event.side == side && event.action.Task?)
    ensures Finishing(Apply(limits, s, event).Of(side)) && Work(Apply(limits, s, event).Of(side)) == Work(s.Of(side))
  {}

  lemma OneStepIsPaid(limits: Limits, s: State, event: Event, side: Side)
    requires Legal(limits, s, event) && Finishing(s.Of(side))
    ensures Finishing(Apply(limits, s, event).Of(side))
    ensures Work(Apply(limits, s, event).Of(side)) + TaskSteps([event], side) <= Work(s.Of(side))
  {
    assert [event][..0] == [];
    if event.On? && event.side == side && event.action.Task? {
      WorkFalls(limits, s.now, event.action.task, Local(s.Of(side), s.room));
    } else {
      OthersLeaveTheWork(limits, s, event, side);
    }
  }

  /**
    Finalization cannot be put off: once the pump has ended and the verdict is given or abandoned,
    whatever else happens in between (ticks, the other stream, the engine), each step the task takes
    pays off some of a fixed amount of work. With that many steps taken the sink is finalized, and
    was once.
   */
  lemma {:induction false} FinalizationIsReached(limits: Limits, events: seq<Event>, more: seq<Event>, side: Side)
    requires Run(limits, events + more)
    ensures Run(limits, events)
    ensures Finishing(After(limits, events).Of(side)) ==>
              var before, st := After(limits, events).Of(side), After(limits, events + more).Of(side);
              && Finishing(st)
              && Work(st) + TaskSteps(more, side) <= Work(before)
              && (Work(before) <= TaskSteps(more, side) ==> st.sink.Finalized? && st.history.finalizations == 1)
  {
    Extends(limits, events, more);
    if Finishing(After(limits, events).Of(side)) {
      WorkIsPaid(limits, events, more, side);
      FinalizedOnceAndLast(limits, events + more, side);
    }
  }

  lemma {:induction false} WorkIsPaid(limits: Limits, events: seq<Event>, more: seq<Event>, side: Side)
    requires Run(limits, events) && Run(limits, events + more) && Finishing(After(limits, events).Of(side))
    ensures Finishing(After(limits, events + more).Of(side))
    ensures Work(After(limits, events + more).Of(side)) + TaskSteps(more, side) <= Work(After(limits, events).Of(side))
    decreases |more|
  {
    if more == [] {
      NothingMore(events);
    } else {
      var all, init, last := events + more, more[..|more| - 1], more[|more| - 1];
      assert all[..|all| - 1] == events + init && all[|all| - 1] == last;
      WorkIsPaid(limits, events, init, side);
      OneStepIsPaid(limits, After(limits, events + init), last, side);
      assert [last][..0] == [];
    }
  }
}
