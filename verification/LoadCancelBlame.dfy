/**
 Who a cancel can hit. A load ends cancelled only if somebody asked to stop that very load, as long
 as no dialog exit leaves a latched stop behind; one that does cancels the next load instead.
 */
module LoadCancelBlame {
  import opened Basics
  import opened LoadTickets
  import opened LoadTicketSafety

  /** The latch is clear whenever no load runs, so the next one starts with it clear. */
  ghost predicate Clean(s: State) {
    !s.active && !InWindow(s) ==> s.cancelMode == NoCancel
  }

  /** A dialog that ends without being accepted skips the check that consumes a latched stop. */
  predicate Leaks(s: State, op: Op) {
    op.OpAnswerDialog? && !op.answer.Accepted? && s.cancelMode != NoCancel
  }

  // ---------- The latch ----------

  lemma {:induction false} RunEntriesClean(s: State, entries: seq<EntryStart>, index: nat, kept: seq<nat>, failures: nat)
    requires s.active && !s.shuttingDown && index <= |entries|
    ensures Clean(RunEntries(s, entries, index, kept, failures))
    decreases |entries| - index
  {
    if index < |entries| && entries[index].RefusedBeforeStart? {
      RunEntriesClean(s, entries, index + 1, kept, failures + 1);
    }
  }

  lemma PastDialogClean(s: State, plan: Plan)
    requires s.active && !s.shuttingDown
    ensures Clean(PastDialog(s, plan))
  {
    if s.cancelMode == NoCancel && plan.FanOut? {
      RunEntriesClean(s, plan.entries, 0, [], 0);
    }
  }

  lemma StartNextClean(s: State, script: Prologue)
    requires !s.shuttingDown && (s.active || s.cancelMode == NoCancel) && (!s.active ==> s.frame == NoFrame)
    ensures Clean(StartNext(s, script))
  {
    if !s.active && s.queue != [] && script.PrologueReady? {
      PastDialogClean(Dequeue(s), script.plan);
    }
  }

  lemma WorkerFinishedClean(s: State, g: nat, ok: bool, replayOk: bool)
    requires Clean(s) && Flags(s)
    ensures Clean(OnWorkerFinished(s, g, ok, replayOk))
  {
  }

  lemma DispatchClean(s: State, script: Prologue, replayOk: bool)
    requires Inv(s) && Clean(s) && s.calls == [] && s.events != []
    ensures Clean(Dispatch(s, script, replayOk))
  {
    var n := s.(events := s.events[1..]);
    match s.events[0]
    case StartNextEvent => StartNextClean(n, script);
    case DeliverEvent =>
    case WorkerFinished(g, ok) => WorkerFinishedClean(n, g, ok, replayOk);
    case EntryFinished(g, i, ok) =>
      if Awaits(n, g, i) && n.cancelMode == NoCancel {
        RunEntriesClean(n.(frame := NoFrame, worker := None), n.frame.entries, n.frame.index + 1,
                        KeptAfter(n, ok), FailuresAfter(n, ok));
      }
    case CancelEvent(t, keep) => CancelLoadClean(n, t, keep);
  }

  lemma AnswerDialogClean(s: State, answer: DialogAnswer)
    requires Inv(s) && s.calls == [] && s.frame.DialogFrame?
    ensures Clean(AnswerDialog(s, answer)) <==> answer.Accepted? || s.cancelMode == NoCancel
  {
    if answer.Accepted? {
      PastDialogClean(s.(frame := NoFrame), answer.plan);
    }
  }

  lemma {:induction false} CancelAllLatch(s: State, collected: seq<Request>)
    ensures CancelAll(s, collected).cancelMode == s.cancelMode
    decreases |collected|
  {
    if collected != [] {
      CancelAllLatch(EmitLoadFinished(s, Terminal(collected[0].ticket, Cancelled, collected[0].identity, 0, [])), collected[1..]);
    }
  }

  lemma CancelLoadClean(s: State, t: nat, keep: bool)
    requires Clean(s)
    ensures Clean(CancelLoad(s, t, keep).0)
  {
  }

  lemma BeginShutdownClean(s: State, startOk: bool)
    ensures Clean(BeginShutdown(s, startOk))
  {
  }

  /** Stops are latched only while a load runs. */
  lemma StopClean(s: State, op: Op)
    requires Clean(s) && Enabled(s, op)
    requires op.OpCancelLoadAsync? || op.OpCancelCurrent? || op.OpCancelGeneration? || op.OpStopRow?
    ensures Clean(Step(s, op))
  {
  }

  lemma CallLatch(s: State, op: Op)
    requires Inv(s) && Clean(s) && Legal(s, op) && !OnLoop(op)
    ensures Clean(Step(s, op))
  {
    match op
    case OpLoad(usable, identity, script) =>
      if Accepts(s, usable) {
        StartNextClean(Enqueue(s, identity), script);
      }
    case OpCancelLoad(t, keep) => CancelLoadClean(s, t, keep);
    case OpShutdown(ok) => BeginShutdownClean(s, ok);
    case OpDestroy(ok) => BeginShutdownClean(s.(destroying := true), ok);
    case OpCancelLoadAsync(_, _) => StopClean(s, op);
    case OpCancelCurrent(_) => StopClean(s, op);
    case OpCancelGeneration(_, _) => StopClean(s, op);
    case OpStopRow(_, _, _) => StopClean(s, op);
  }

  lemma LoopLatch(s: State, op: Op)
    requires Inv(s) && Clean(s) && Legal(s, op) && OnLoop(op) && !op.OpAnswerDialog?
    ensures Clean(Step(s, op))
  {
    match op
    case OpDispatch(script, replayOk) => DispatchClean(s, script, replayOk);
    case OpFinishTail(script) =>
      StartNextClean(PopCall(s).(cancelMode := NoCancel, active := false), script);
    case OpShutdownTail => CancelAllLatch(Reset(s), s.calls[|s.calls| - 1].collected);
    case _ =>
  }

  /** A legal step leaves the latch clear between loads exactly when it is not a leaking dialog exit. */
  lemma LatchExact(s: State, op: Op)
    requires Inv(s) && Clean(s) && Legal(s, op)
    ensures Clean(Step(s, op)) <==> !Leaks(s, op)
  {
    if op.OpAnswerDialog? {
      AnswerDialogClean(s, op.answer);
    } else if OnLoop(op) {
      LoopLatch(s, op);
    } else {
      CallLatch(s, op);
    }
  }

  // ---------- Blame ----------

  /** Every cancelled terminal names a ticket somebody asked to stop. */
  ghost predicate BlamedTerminals(ts: seq<Terminal>, stopped: set<nat>) {
    forall i :: 0 <= i < |ts| && ts[i].outcome == Cancelled ==> ts[i].ticket in stopped
  }

  ghost predicate Blamed(s: State) {
    && BlamedTerminals(s.pending, s.stopped)
    && BlamedTerminals(s.delivered, s.stopped)
    && (s.active && !InWindow(s) && s.cancelMode != NoCancel ==> s.currentTicket in s.stopped)
    && (s.frame.EntryFrame? ==> EntriesBlamed(s, s.frame.index, s.frame.kept, s.frame.failures))
    && (s.frame.EntryFrame? && s.frame.rowStop != NoCancel ==> s.currentTicket in s.stopped)
    && (InWindow(s) ==> RequestsBlamed(Unresolved(s), s.stopped))
  }

  ghost predicate RequestsBlamed(q: seq<Request>, stopped: set<nat>) {
    forall i :: 0 <= i < |q| ==> q[i].ticket in stopped
  }

  /** Entries that neither kept data nor failed were all stopped by their rows. */
  ghost predicate EntriesBlamed(s: State, done: nat, kept: seq<nat>, failures: nat) {
    done > 0 && kept == [] && failures == 0 ==> s.currentTicket in s.stopped
  }

  lemma EmitBlamed(s: State, t: Terminal)
    requires BlamedTerminals(s.pending, s.stopped) && (t.outcome == Cancelled ==> t.ticket in s.stopped)
    ensures BlamedTerminals(EmitLoadFinished(s, t).pending, s.stopped)
  {
  }

  lemma EndPrologueBlamed(s: State, outcome: Outcome, produced: seq<nat>)
    requires Running(s) && Blamed(s) && (outcome == Cancelled ==> s.currentTicket in s.stopped)
    ensures Blamed(EndPrologue(s, outcome, produced))
  {
    EmitBlamed(s, CurrentTerminal(s, outcome, produced));
  }

  lemma FanOutEpilogueBlamed(s: State, kept: seq<nat>, failures: nat, wholeStop: CancelMode)
    requires Running(s) && Blamed(s) && EntriesBlamed(s, 1, kept, failures)
    requires wholeStop != NoCancel ==> s.currentTicket in s.stopped
    ensures Blamed(FanOutEpilogue(s, kept, failures, wholeStop))
  {
    var c := s.(cancelMode := NoCancel);
    forall o: Outcome, p: seq<nat> | o == Cancelled ==> s.currentTicket in s.stopped ensures Blamed(EndPrologue(c, o, p)) {
      EndPrologueBlamed(c, o, p);
    }
  }

  lemma {:induction false} RunEntriesBlamed(s: State, entries: seq<EntryStart>, index: nat, kept: seq<nat>, failures: nat)
    requires Running(s) && Blamed(s) && index <= |entries| && entries != [] && s.cancelMode == NoCancel
    requires EntriesBlamed(s, index, kept, failures)
    ensures Blamed(RunEntries(s, entries, index, kept, failures))
    decreases |entries| - index
  {
    if index == |entries| {
      FanOutEpilogueBlamed(s, kept, failures, NoCancel);
    } else if entries[index].RefusedBeforeStart? {
      RunEntriesBlamed(s, entries, index + 1, kept, failures + 1);
    }
  }

  lemma PastDialogBlamed(s: State, plan: Plan)
    requires Running(s) && Blamed(s) && ValidPlan(plan)
    ensures Blamed(PastDialog(s, plan))
  {
    if s.cancelMode != NoCancel {
      EndPrologueBlamed(s.(cancelMode := NoCancel), Cancelled, []);
    } else {
      match plan
      case RefusedExpansion => EndPrologueBlamed(s, Failed, []);
      case SingleInstance(_, _) =>
      case FanOut(entries) => RunEntriesBlamed(s, entries, 0, [], 0);
    }
  }

  lemma StartNextBlamed(s: State, script: Prologue)
    requires Inv(s) || (LedgerInv(s) && Idle(s))
    requires Blamed(s) && !InWindow(s) && (s.active || s.cancelMode == NoCancel) && ValidPrologue(script)
    ensures Blamed(StartNext(s, script))
  {
    if !s.active && s.queue != [] {
      var d := Dequeue(s);
      QueuedIsElsewhere(s, 0);
      assert Running(d);
      match script
      case PrologueFailed => EndPrologueBlamed(d, Failed, []);
      case PrologueReused(dataset) => EndPrologueBlamed(d, Loaded, [dataset]);
      case PrologueAtDialog =>
      case PrologueReady(plan) => PastDialogBlamed(d, plan);
    }
  }

  lemma ResumeEntryBlamed(s: State, ok: bool)
    requires Flags(s) && Deliveries(s.events) >= |s.pending| && s.calls == [] && s.frame.EntryFrame? && Blamed(s)
    ensures Blamed(ResumeEntry(s, ok))
  {
    var n := s.(frame := NoFrame, worker := None);
    assert Running(n) && Blamed(n);
    if s.cancelMode != NoCancel {
      FanOutEpilogueBlamed(n, KeptAfter(s, ok), FailuresAfter(s, ok), s.cancelMode);
    } else {
      RunEntriesBlamed(n, s.frame.entries, s.frame.index + 1, KeptAfter(s, ok), FailuresAfter(s, ok));
    }
  }

  lemma OnWorkerFinishedBlamed(n: State, g: nat, ok: bool, replayOk: bool)
    requires Flags(n) && Blamed(n) && n.calls == []
    ensures Blamed(OnWorkerFinished(n, g, ok, replayOk))
  {
  }

  lemma DispatchBlamed(s: State, script: Prologue, replayOk: bool)
    requires Inv(s) && Clean(s) && Blamed(s) && s.calls == [] && s.events != [] && ValidPrologue(script)
    ensures Blamed(Dispatch(s, script, replayOk))
  {
    var n := s.(events := s.events[1..]);
    PopControl(s);
    match s.events[0]
    case StartNextEvent =>
      SameLedgerKeeps(s, n);
      if !n.active {
        StartNextBlamed(n, script);
      }
    case DeliverEvent =>
    case WorkerFinished(g, ok) => OnWorkerFinishedBlamed(n, g, ok, replayOk);
    case EntryFinished(g, i, ok) =>
      if Awaits(n, g, i) {
        ResumeEntryBlamed(n, ok);
      }
    case CancelEvent(t, keep) => CancelLoadBlamed(n, t, keep);
  }

  lemma CancelQueuedBlamed(s: State, i: nat)
    requires Blamed(s) && !InWindow(s) && i < |s.queue|
    ensures Blamed(CancelQueued(s, i))
  {
  }

  lemma LatchBlamed(s: State, keep: bool)
    requires Blamed(s)
    ensures Blamed(CancelCurrent(s, keep))
  {
  }

  lemma CancelLoadBlamed(s: State, t: nat, keep: bool)
    requires Blamed(s) && (InWindow(s) ==> t == 0 || !Queued(s, t))
    ensures Blamed(CancelLoad(s, t, keep).0)
  {
    LatchBlamed(s, keep);
    if t != 0 && Queued(s, t) {
      CancelQueuedBlamed(s, FindTicket(s.queue, t));
    }
  }

  lemma AnswerDialogBlamed(s: State, answer: DialogAnswer)
    requires Inv(s) && Blamed(s) && s.calls == [] && s.frame.DialogFrame? && (answer.Accepted? ==> ValidPlan(answer.plan))
    ensures Blamed(AnswerDialog(s, answer))
  {
    var n := s.(frame := NoFrame);
    assert Running(n) && Blamed(n);
    match answer
    case ContractViolation => EndPrologueBlamed(n, Failed, []);
    case ConfigRefused => EndPrologueBlamed(n, Failed, []);
    case Rejected => EndPrologueBlamed(n.(stopped := n.stopped + {n.currentTicket}), Cancelled, []);
    case Accepted(plan) => PastDialogBlamed(n, plan);
  }

  lemma MoreStopped(ts: seq<Terminal>, stopped: set<nat>, more: set<nat>)
    requires BlamedTerminals(ts, stopped)
    ensures BlamedTerminals(ts, stopped + more)
  {
  }

  lemma TicketSetHolds(q: seq<Request>, stopped: set<nat>)
    ensures RequestsBlamed(q, stopped + TicketSet(q))
  {
    forall i | 0 <= i < |q| ensures q[i].ticket in TicketSet(q) {
      assert q[i] in q;
    }
  }

  lemma BeginShutdownBlamed(s: State, startOk: bool)
    requires Blamed(s)
    ensures Blamed(BeginShutdown(s, startOk))
  {
    var b := BeginShutdown(s, startOk);
    assert BlamedTerminals(b.pending, b.stopped) by { MoreStopped(s.pending, s.stopped, TicketSet(Unresolved(s))); }
    assert BlamedTerminals(b.delivered, b.stopped) by { MoreStopped(s.delivered, s.stopped, TicketSet(Unresolved(s))); }
    assert RequestsBlamed(Unresolved(b), b.stopped) by { TicketSetHolds(Unresolved(s), s.stopped); }
    assert b.frame == s.frame && b.currentTicket == s.currentTicket && InWindow(b);
  }

  lemma {:induction false} CancelAllBlamed(s: State, collected: seq<Request>)
    requires BlamedTerminals(s.pending, s.stopped) && RequestsBlamed(collected, s.stopped)
    ensures var e := CancelAll(s, collected);
      && BlamedTerminals(e.pending, s.stopped) && e.stopped == s.stopped && e.delivered == s.delivered
      && e.frame == s.frame && e.active == s.active && e.calls == s.calls
    decreases |collected|
  {
    if collected != [] {
      CancelAllBlamed(EmitLoadFinished(s, Terminal(collected[0].ticket, Cancelled, collected[0].identity, 0, [])), collected[1..]);
    }
  }

  lemma LoadBlamed(s: State, usable: bool, identity: string, script: Prologue)
    requires Inv(s) && Clean(s) && Blamed(s) && (InWindow(s) ==> !Accepts(s, usable)) && ValidPrologue(script)
    ensures Blamed(LoadFileTicketed(s, usable, identity, script))
  {
    if Accepts(s, usable) {
      EnqueueLedger(s, identity);
      EnqueueControl(s, identity);
      StartNextBlamed(Enqueue(s, identity), script);
    }
  }

  lemma PostBlamed(s: State, e: Event)
    requires Blamed(s)
    ensures Blamed(Post(s, e))
  {
  }

  lemma StopRowBlamed(s: State, generation: nat, index: nat, keep: bool)
    requires Blamed(s)
    ensures Blamed(StopRow(s, generation, index, keep))
  {
  }

  lemma CallBlamed(s: State, op: Op)
    requires Inv(s) && Clean(s) && Blamed(s) && Legal(s, op) && !OnLoop(op)
    ensures Blamed(Step(s, op))
  {
    match op
    case OpLoad(usable, identity, script) => LoadBlamed(s, usable, identity, script);
    case OpCancelLoad(t, keep) => CancelLoadBlamed(s, t, keep);
    case OpShutdown(ok) => BeginShutdownBlamed(s, ok);
    case OpDestroy(ok) => BeginShutdownBlamed(s.(destroying := true), ok);
    case OpCancelLoadAsync(t, keep) => PostBlamed(s, CancelEvent(t, keep));
    case OpCancelCurrent(keep) => LatchBlamed(s, keep);
    case OpCancelGeneration(_, keep) => LatchBlamed(s, keep);
    case OpStopRow(g, i, keep) => StopRowBlamed(s, g, i, keep);
  }

  lemma EndWorkerBlamed(s: State, script: Prologue)
    requires Inv(s) && Blamed(s) && OnTop(s, FinishTail) && !(s.active && !s.currentTerminal) && ValidPrologue(script)
    ensures Blamed(EndWorker(s, script))
  {
    EndWorkerLedger(s);
    StartNextBlamed(PopCall(s).(cancelMode := NoCancel, active := false), script);
  }

  lemma EndShutdownBlamed(s: State)
    requires Inv(s) && Blamed(s) && InWindow(s)
    ensures Blamed(EndShutdown(s))
  {
    CancelAllBlamed(Reset(s), Unresolved(s));
  }

  lemma LoopBlamed(s: State, op: Op)
    requires Inv(s) && Clean(s) && Blamed(s) && Legal(s, op) && OnLoop(op)
    ensures Blamed(Step(s, op))
  {
    match op
    case OpAnswerDialog(answer) => AnswerDialogBlamed(s, answer);
    case OpDispatch(script, replayOk) => DispatchBlamed(s, script, replayOk);
    case OpFinishTail(script) => EndWorkerBlamed(s, script);
    case OpShutdownTail => EndShutdownBlamed(s);
    case _ =>
  }

  /** A run none of whose dialog exits leaks a latched stop. */
  ghost predicate CleanRun(s: State, ops: seq<Op>)
    requires LegalRun(s, ops)
    decreases |ops|
  {
    ops == [] || (!Leaks(s, ops[0]) && CleanRun(Step(s, ops[0]), ops[1..]))
  }

  lemma {:induction false} CleanRunBlamed(s: State, ops: seq<Op>)
    requires Inv(s) && Clean(s) && Blamed(s) && LegalRun(s, ops) && CleanRun(s, ops)
    ensures Blamed(Run(s, ops)) && Clean(Run(s, ops))
    decreases |ops|
  {
    if ops != [] {
      StepKeeps(s, ops[0]);
      LatchExact(s, ops[0]);
      if OnLoop(ops[0]) {
        LoopBlamed(s, ops[0]);
      } else {
        CallBlamed(s, ops[0]);
      }
      CleanRunBlamed(Step(s, ops[0]), ops[1..]);
    }
  }

  /**
   Over every run without a leaking dialog exit: a terminal is `Cancelled` only for a ticket somebody asked to
   stop (a cancel naming it, a row stop or dialog reject of its load, or a shutdown), and a load that is about to
   start finds the latch clear.
   */
  lemma CancelledWasAskedFor(ops: seq<Op>, i: nat)
    requires LegalRun(INITIAL, ops) && CleanRun(INITIAL, ops)
    ensures var s := Run(INITIAL, ops);
      && (i < |s.delivered| && s.delivered[i].outcome == Cancelled ==> s.delivered[i].ticket in s.stopped)
      && (!s.active && !InWindow(s) ==> s.cancelMode == NoCancel)
  {
    CleanRunBlamed(INITIAL, ops);
  }

  // ---------- The failing scenario ----------

  const ASKED := Terminal(1, Cancelled, "a", 0, [])
  const NOT_ASKED := Terminal(2, Cancelled, "b", 0, [])
  const SINGLE := PrologueReady(SingleInstance(7, false))

  /** The first load was cancelled at its dialog, which was then rejected; its terminal is delivered. */
  const LEAKED :=
    INITIAL.(delivered := [ASKED], currentTicket := 1, currentIdentity := "a", currentTerminal := true,
             cancelMode := Discard, loadGeneration := 1, nextGeneration := 1, nextTicket := 1,
             events := [StartNextEvent], stopped := {1})

  const AT_DIALOG :=
    INITIAL.(currentTicket := 1, currentIdentity := "a", active := true, loadGeneration := 1,
             nextGeneration := 1, nextTicket := 1, frame := DialogFrame)

  const REJECTED := LEAKED.(delivered := [], pending := [ASKED], events := [DeliverEvent, StartNextEvent])

  lemma LeakStepsOpen()
    ensures Legal(INITIAL, OpLoad(true, "a", PrologueAtDialog))
    ensures Step(INITIAL, OpLoad(true, "a", PrologueAtDialog)) == AT_DIALOG
  {
    assert Dequeue(Enqueue(INITIAL, "a")).frame == NoFrame;
  }

  lemma LeakStepsReject()
    ensures Legal(AT_DIALOG, OpCancelLoad(1, false))
    ensures var latched := Step(AT_DIALOG, OpCancelLoad(1, false));
      Legal(latched, OpAnswerDialog(Rejected)) && Step(latched, OpAnswerDialog(Rejected)) == REJECTED
  {
    var latched := AT_DIALOG.(cancelMode := Discard, stopped := {1});
    assert Step(AT_DIALOG, OpCancelLoad(1, false)) == latched;
    assert latched.stopped + {1} == {1};
  }

  lemma LeakedIsReachable()
    ensures exists ops: seq<Op> :: LegalRun(INITIAL, ops) && Run(INITIAL, ops) == LEAKED
  {
    var load, cancel, reject := OpLoad(true, "a", PrologueAtDialog), OpCancelLoad(1, false), OpAnswerDialog(Rejected);
    var deliver := OpDispatch(SINGLE, true);
    LeakStepsOpen();
    LeakStepsReject();
    assert Step(REJECTED, deliver) == LEAKED;
    Extend(REJECTED, deliver, []);
    Extend(Step(AT_DIALOG, cancel), reject, [deliver] + []);
    Extend(AT_DIALOG, cancel, [reject] + ([deliver] + []));
    Extend(INITIAL, load, [cancel] + ([reject] + ([deliver] + [])));
  }

  /**
   A cancel of the first load while its dialog is open, answered by rejecting the dialog, cancels the second load:
   the next request ends cancelled although nobody asked to stop it.
   */
  lemma LeakedLatchCancelsTheNextLoad()
    ensures exists ops: seq<Op> :: LegalRun(INITIAL, ops) && Run(INITIAL, ops) == LEAKED
    ensures var s := Step(LEAKED, OpLoad(true, "b", SINGLE)); s.pending == [NOT_ASKED] && NOT_ASKED.ticket !in s.stopped
  {
    LeakedIsReachable();
    assert Dequeue(Enqueue(LEAKED, "b")).cancelMode == Discard;
  }

}
