/**
 The import batch and the loader together: the batch's load tickets are the loader's, and what the batch hears of a load
 is the terminal the loader announces. The loader ends every ticket, so a batch whose import jobs end finishes.
 */
module LayoutImportRun {
  import opened Basics
  import L = LoadTickets
  import S = LoadTicketSafety
  import LT = LoadTicketTheorems
  import B = LayoutImport
  import T = LayoutImportTheorems
  import R = LayoutImportRollback

  datatype System = System(loader: L.State, batch: B.Batch)

  /** `calls` are the loader calls the batch makes inside its slot. */
  datatype Op =
    | LoaderStep(step: L.Op, env: B.Env, calls: seq<L.Op>)
    | BatchStep(op: T.Op, calls: seq<L.Op>)

  function Initial(c: B.Config, live: set<nat>): System {
    System(L.INITIAL, B.New(c, 0, live))
  }

  function Ending(o: L.Outcome): B.LoadOutcome {
    match o
    case Loaded => B.LoadLoaded
    case Failed => B.LoadFailed
    case Cancelled => B.LoadCancelled
  }

  predicate Announces(s: L.State, n: L.State) {
    n.delivered != s.delivered && n.delivered != []
  }

  /** What a loader step means to the batch: its loadFinished slot, somebody else's request, or nothing. */
  function Meaning(s: L.State, n: L.State, env: B.Env): Option<T.Op> {
    if Announces(s, n) then
      var t := n.delivered[|n.delivered| - 1];
      Some(T.LoadFinishedOp(t.ticket, Ending(t.outcome), t.produced, env))
    else if n.nextTicket != s.nextTicket then Some(T.OtherTicketOp)
    else None
  }

  /** The batch's calls give out as many tickets as the batch takes. */
  predicate SlotCalls(s: L.State, calls: seq<L.Op>, minted: int) {
    && L.LegalRun(s, calls) && (forall c :: c in calls ==> c.OpLoad? || c.OpCancelLoad?)
    && L.Run(s, calls).nextTicket == s.nextTicket + minted
  }

  function Minted(b: B.Batch, op: T.Op): int
    requires T.Enabled(b, op)
  {
    T.Step(b, op).nextTicket - b.nextTicket
  }

  predicate Enabled(sys: System, op: Op) {
    match op
    case LoaderStep(step, env, calls) =>
      && L.Legal(sys.loader, step)
      && var n := L.Step(sys.loader, step);
         var heard := Meaning(sys.loader, n, env);
         if heard.Some? && heard.value.LoadFinishedOp?
         then T.Enabled(sys.batch, heard.value) && SlotCalls(n, calls, Minted(sys.batch, heard.value))
         else calls == []
    case BatchStep(bop, calls) =>
      && T.Enabled(sys.batch, bop) && !bop.LoadFinishedOp? && !bop.OtherTicketOp?
      && SlotCalls(sys.loader, calls, Minted(sys.batch, bop))
  }

  function Step(sys: System, op: Op): System
    requires Enabled(sys, op)
  {
    match op
    case LoaderStep(step, env, calls) =>
      var n := L.Step(sys.loader, step);
      var heard := Meaning(sys.loader, n, env);
      if heard.None? then System(n, sys.batch)
      else System(L.Run(n, calls), T.Step(sys.batch, heard.value))
    case BatchStep(bop, calls) => System(L.Run(sys.loader, calls), T.Step(sys.batch, bop))
  }

  predicate LegalRun(sys: System, ops: seq<Op>)
    decreases |ops|
  {
    ops == [] || (Enabled(sys, ops[0]) && LegalRun(Step(sys, ops[0]), ops[1..]))
  }

  function Run(sys: System, ops: seq<Op>): System
    requires LegalRun(sys, ops)
    decreases |ops|
  {
    if ops == [] then sys else Run(Step(sys, ops[0]), ops[1..])
  }

  // ---------- What a loader step announces and mints ----------

  predicate Quiet(s: L.State, n: L.State) {
    n.delivered == s.delivered && n.nextTicket == s.nextTicket
  }

  lemma {:induction false} RunEntriesQuiet(
    s: L.State, entries: seq<L.EntryStart>, index: nat, kept: seq<nat>, failures: nat)
    requires index <= |entries|
    ensures Quiet(s, L.RunEntries(s, entries, index, kept, failures))
    decreases |entries| - index
  {
    if index < |entries| && entries[index].RefusedBeforeStart? {
      RunEntriesQuiet(s, entries, index + 1, kept, failures + 1);
    }
  }

  lemma PastDialogQuiet(s: L.State, plan: L.Plan)
    ensures Quiet(s, L.PastDialog(s, plan))
  {
    if plan.FanOut? { RunEntriesQuiet(s, plan.entries, 0, [], 0); }
  }

  lemma StartNextQuiet(s: L.State, script: L.Prologue)
    ensures Quiet(s, L.StartNext(s, script))
  {
    var d := L.DropFrame(s);
    if !s.active && d.queue != [] && script.PrologueReady? {
      PastDialogQuiet(L.Dequeue(d), script.plan);
    }
  }

  lemma AnswerDialogQuiet(s: L.State, answer: L.DialogAnswer)
    requires s.frame.DialogFrame?
    ensures Quiet(s, L.AnswerDialog(s, answer))
  {
    if answer.Accepted? { PastDialogQuiet(s.(frame := L.NoFrame), answer.plan); }
  }

  lemma ResumeEntryQuiet(s: L.State, ok: bool)
    requires s.frame.EntryFrame? && s.frame.index < |s.frame.entries| && s.frame.entries[s.frame.index].Started?
    ensures Quiet(s, L.ResumeEntry(s, ok))
  {
    var n := s.(frame := L.NoFrame, worker := None);
    if n.cancelMode == L.NoCancel {
      RunEntriesQuiet(n, s.frame.entries, s.frame.index + 1, L.KeptAfter(s, ok), L.FailuresAfter(s, ok));
    }
  }

  lemma {:induction false} CancelAllQuiet(s: L.State, collected: seq<L.Request>)
    ensures Quiet(s, L.CancelAll(s, collected))
    decreases |collected|
  {
    if collected != [] {
      var r := collected[0];
      CancelAllQuiet(L.EmitLoadFinished(s, L.Terminal(r.ticket, L.Cancelled, r.identity, 0, [])), collected[1..]);
    }
  }

  /** A step announces at most one terminal, the oldest pending one, and then mints nothing. */
  predicate AnnouncesOne(s: L.State, n: L.State) {
    Quiet(s, n) || (n.nextTicket == s.nextTicket && s.pending != [] && n.delivered == s.delivered + [s.pending[0]])
  }

  lemma WorkerFinishedQuiet(s: L.State, g: nat, ok: bool, replayOk: bool)
    ensures Quiet(s, L.OnWorkerFinished(s, g, ok, replayOk))
  {
  }

  lemma DeliverAnnounces(s: L.State)
    ensures AnnouncesOne(s, L.DeliverPending(s))
  {
  }

  lemma DispatchAnnounces(s: L.State, script: L.Prologue, replayOk: bool)
    requires s.events != []
    ensures AnnouncesOne(s, L.Dispatch(s, script, replayOk))
  {
    var n := s.(events := s.events[1..]);
    match s.events[0]
    case StartNextEvent => StartNextQuiet(n, script);
    case DeliverEvent => DeliverAnnounces(n);
    case WorkerFinished(g, ok) => WorkerFinishedQuiet(n, g, ok, replayOk);
    case EntryFinished(g, i, ok) =>
      if L.Awaits(n, g, i) { ResumeEntryQuiet(n, ok); }
    case CancelEvent(t, keep) => CancelQuiet(n, t, keep);
  }

  lemma CancelQuiet(s: L.State, t: nat, keep: bool)
    ensures Quiet(s, L.CancelLoad(s, t, keep).0)
  {
  }

  lemma LoadMints(s: L.State, usable: bool, identity: string, script: L.Prologue)
    ensures var n := L.LoadFileTicketed(s, usable, identity, script);
      n.delivered == s.delivered && n.nextTicket == s.nextTicket + One(L.Accepts(s, usable))
  {
    StartNextQuiet(L.Enqueue(s, identity), script);
  }

  /** Stops, a worker's return and the first half of shutdown. */
  lemma LatchQuiet(s: L.State, step: L.Op)
    requires L.Enabled(s, step)
    requires step.OpCancelLoadAsync? || step.OpCancelCurrent? || step.OpCancelGeneration? || step.OpStopRow?
             || step.OpWorkerDone? || step.OpShutdown? || step.OpDestroy?
    ensures Quiet(s, L.Step(s, step))
  {
  }

  lemma StepAnnounces(s: L.State, step: L.Op)
    requires L.Enabled(s, step) && !step.OpLoad?
    ensures AnnouncesOne(s, L.Step(s, step))
  {
    match step
    case OpDispatch(script, replayOk) => DispatchAnnounces(s, script, replayOk);
    case OpAnswerDialog(answer) => AnswerDialogQuiet(s, answer);
    case OpFinishTail(script) =>
      StartNextQuiet(L.PopCall(s).(cancelMode := L.NoCancel, active := false), script);
    case OpShutdownTail => CancelAllQuiet(L.Reset(s), s.calls[|s.calls| - 1].collected);
    case OpCancelLoad(t, keep) => CancelQuiet(s, t, keep);
    case OpCancelLoadAsync(_, _) => LatchQuiet(s, step);
    case OpCancelCurrent(_) => LatchQuiet(s, step);
    case OpCancelGeneration(_, _) => LatchQuiet(s, step);
    case OpStopRow(_, _, _) => LatchQuiet(s, step);
    case OpWorkerDone(_) => LatchQuiet(s, step);
    case OpShutdown(_) => LatchQuiet(s, step);
    case OpDestroy(_) => LatchQuiet(s, step);
    case OpFlush => DeliverAnnounces(s);
  }

  lemma {:induction false} CallsAnnounceNothing(s: L.State, calls: seq<L.Op>)
    requires S.Inv(s) && L.LegalRun(s, calls) && forall c :: c in calls ==> c.OpLoad? || c.OpCancelLoad?
    ensures L.Run(s, calls).delivered == s.delivered && S.Inv(L.Run(s, calls))
    decreases |calls|
  {
    if calls != [] {
      var n := L.Step(s, calls[0]);
      assert calls[0] in calls;
      S.StepKeeps(s, calls[0]);
      if calls[0].OpLoad? {
        LoadMints(s, calls[0].usable, calls[0].identity, calls[0].script);
      } else {
        CancelQuiet(s, calls[0].ticket, calls[0].keep);
      }
      forall c | c in calls[1..] ensures c.OpLoad? || c.OpCancelLoad? { assert c in calls; }
      CallsAnnounceNothing(n, calls[1..]);
    }
  }

  // ---------- The coupling ----------

  /** The batch waits for tickets the loader has given out and not announced yet. */
  ghost predicate Awaited(s: L.State, b: B.Batch) {
    forall t :: t in b.tickets ==> 1 <= t <= s.nextTicket && S.Resolved(s.delivered, t) == 0
  }

  ghost predicate Coupled(sys: System) {
    && S.Inv(sys.loader) && T.Inv(sys.batch)
    && sys.batch.nextTicket == sys.loader.nextTicket && Awaited(sys.loader, sys.batch)
  }

  /** A ticket not given out yet has not been announced. */
  lemma NotYetAnnounced(s: L.State, t: nat)
    requires S.Inv(s) && t > s.nextTicket
    ensures S.Resolved(s.delivered, t) == 0
  {
    assert S.Places(s, t) == 0;
  }

  /** An operation of the batch and the loader calls it makes. */
  lemma BatchOpKeeps(s: L.State, b: B.Batch, op: T.Op, calls: seq<L.Op>)
    requires S.Inv(s) && T.Inv(b) && b.nextTicket == s.nextTicket && T.Enabled(b, op)
    requires SlotCalls(s, calls, Minted(b, op))
    requires forall t :: t in T.Step(b, op).tickets && t in b.tickets ==>
      1 <= t <= s.nextTicket && S.Resolved(s.delivered, t) == 0
    ensures Coupled(System(L.Run(s, calls), T.Step(b, op)))
  {
    var n := T.Step(b, op);
    T.StepKeeps(b, op);
    R.StepFrame(b, op);
    CallsAnnounceNothing(s, calls);
    forall t | t in n.tickets ensures 1 <= t <= n.nextTicket && S.Resolved(s.delivered, t) == 0 {
      if t !in b.tickets { NotYetAnnounced(s, t); }
    }
  }

  lemma AnnouncedKeeps(sys: System, step: L.Op, env: B.Env, calls: seq<L.Op>)
    requires Coupled(sys) && Enabled(sys, LoaderStep(step, env, calls)) && !step.OpLoad?
    requires Announces(sys.loader, L.Step(sys.loader, step))
    ensures Coupled(Step(sys, LoaderStep(step, env, calls)))
  {
    var s, b := sys.loader, sys.batch;
    var n := L.Step(s, step);
    StepAnnounces(s, step);
    S.StepKeeps(s, step);
    var t := s.pending[0];
    var op := T.LoadFinishedOp(t.ticket, Ending(t.outcome), t.produced, env);
    assert n.delivered[|n.delivered| - 1] == t;
    assert Meaning(s, n, env) == Some(op);
    forall u | u in T.Step(b, op).tickets && u in b.tickets
      ensures 1 <= u <= n.nextTicket && S.Resolved(n.delivered, u) == 0
    {
      S.ResolvedPush(s.delivered, t, u);
      if t.ticket in b.tickets { HeardTicketGoes(b, op, u); }
    }
    BatchOpKeeps(n, b, op, calls);
  }

  /** The ticket the batch has just heard of is no longer one it waits for. */
  lemma HeardTicketGoes(b: B.Batch, op: T.Op, u: nat)
    requires T.Inv(b) && T.Enabled(b, op) && op.LoadFinishedOp? && op.ticket in b.tickets
    requires u in T.Step(b, op).tickets && u <= b.nextTicket
    ensures u != op.ticket
  {
    R.LoadFinishedFrame(b, op.ticket, op.outcome, op.ids, op.env);
  }

  lemma QuietStepKeeps(sys: System, step: L.Op, env: B.Env, calls: seq<L.Op>)
    requires Coupled(sys) && Enabled(sys, LoaderStep(step, env, calls))
    requires !Announces(sys.loader, L.Step(sys.loader, step))
    ensures Coupled(Step(sys, LoaderStep(step, env, calls)))
  {
    S.StepKeeps(sys.loader, step);
    QuietStepMints(sys.loader, step);
    QuietCoupled(sys, L.Step(sys.loader, step));
  }

  /** A loader step that announces nothing gives out at most one ticket. */
  lemma QuietStepMints(s: L.State, step: L.Op)
    requires L.Enabled(s, step) && !Announces(s, L.Step(s, step))
    ensures var n := L.Step(s, step);
      n.delivered == s.delivered && (n.nextTicket == s.nextTicket || n.nextTicket == s.nextTicket + 1)
  {
    if step.OpLoad? {
      LoadMints(s, step.usable, step.identity, step.script);
    } else {
      StepAnnounces(s, step);
    }
  }

  /** The batch beside a loader that has announced nothing and given out at most one ticket. */
  lemma QuietCoupled(sys: System, n: L.State)
    requires Coupled(sys) && S.Inv(n) && n.delivered == sys.loader.delivered
    requires n.nextTicket == sys.loader.nextTicket || n.nextTicket == sys.loader.nextTicket + 1
    ensures Coupled(System(n, if n.nextTicket == sys.loader.nextTicket then sys.batch
                              else T.Step(sys.batch, T.OtherTicketOp)))
  {
    T.OtherTicketKeeps(sys.batch);
  }

  lemma StepKeeps(sys: System, op: Op)
    requires Coupled(sys) && Enabled(sys, op)
    ensures Coupled(Step(sys, op))
  {
    match op
    case LoaderStep(step, env, calls) =>
      if step.OpLoad? { LoadMints(sys.loader, step.usable, step.identity, step.script); }
      if Announces(sys.loader, L.Step(sys.loader, step)) {
        AnnouncedKeeps(sys, step, env, calls);
      } else {
        QuietStepKeeps(sys, step, env, calls);
      }
    case BatchStep(bop, calls) => BatchOpKeeps(sys.loader, sys.batch, bop, calls);
  }

  lemma {:induction false} RunKeeps(sys: System, ops: seq<Op>)
    requires Coupled(sys) && LegalRun(sys, ops)
    ensures Coupled(Run(sys, ops))
    decreases |ops|
  {
    if ops != [] {
      StepKeeps(sys, ops[0]);
      RunKeeps(Step(sys, ops[0]), ops[1..]);
    }
  }

  lemma InitialCoupled(c: B.Config, live: set<nat>)
    ensures Coupled(Initial(c, live))
  {
    LT.InitialInv();
  }

  /**
   Over every run of the two together: once the loader has drained and no import job is active, a batch that was started
   has finished, with every source concluded and finished() posted.
   */
  lemma DrainedLoaderFinishesBatch(c: B.Config, live: set<nat>, ops: seq<Op>)
    requires LegalRun(Initial(c, live), ops)
    requires var sys := Run(Initial(c, live), ops); LT.Drained(sys.loader) && sys.batch.active.None?
    ensures var b := Run(Initial(c, live), ops).batch;
      b.before.Some? ==> b.stage == B.Finished && T.AllConcluded(b) && B.EmitFinished in b.effects
  {
    InitialCoupled(c, live);
    RunKeeps(Initial(c, live), ops);
    var sys := Run(Initial(c, live), ops);
    var b := sys.batch;
    if b.before.Some? {
      forall t | t in b.tickets ensures false {
        LT.DrainedDelivers(sys.loader, t);
      }
      assert b.tickets == map[];
      T.TraceEnds(b);
    }
  }

  /** Until then a running batch is waiting for a ticket the loader still owes, or for its active job. */
  lemma WaitsForTheLoader(c: B.Config, live: set<nat>, ops: seq<Op>)
    requires LegalRun(Initial(c, live), ops)
    requires var b := Run(Initial(c, live), ops).batch; b.stage == B.Running || b.stage == B.Cancelling
    ensures var sys := Run(Initial(c, live), ops);
      sys.batch.active.Some? || exists t :: t in sys.batch.tickets && S.Resolved(sys.loader.delivered, t) == 0
                                            && S.Places(sys.loader, t) == 1
  {
    InitialCoupled(c, live);
    RunKeeps(Initial(c, live), ops);
    var sys := Run(Initial(c, live), ops);
    if sys.batch.active.None? {
      var t :| t in sys.batch.tickets;
      assert S.Places(sys.loader, t) == 1;
    }
  }
}
