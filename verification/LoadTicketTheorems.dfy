/**
 The contract of `loadFileTicketed` and of cancel-by-ticket over whole runs, and exactly which
 re-entrant calls break it.
 */
module LoadTicketTheorems {
  import opened Basics
  import opened LoadTickets
  import opened LoadTicketSafety

  // ---------- Exactly once ----------

  lemma InitialInv()
    ensures Inv(INITIAL)
  {
  }

  /** In every reachable state each accepted ticket is in exactly one place, so no terminal repeats. */
  lemma EveryTicketInOnePlace(ops: seq<Op>, t: nat)
    requires LegalRun(INITIAL, ops)
    ensures var s := Run(INITIAL, ops);
      && Places(s, t) == (if 1 <= t <= s.nextTicket then 1 else 0)
      && Resolved(s.delivered, t) <= 1
  {
    InitialInv();
    RunKeeps(INITIAL, ops);
  }

  /** Nothing is left that could still act: no posted call, no call on the stack, no worker, no open dialog. */
  ghost predicate Drained(s: State) {
    s.events == [] && s.calls == [] && s.worker.None? && !s.frame.DialogFrame?
  }

  /** Once everything has drained, every accepted ticket was delivered exactly once and the loader is idle. */
  lemma DrainedDeliversAll(ops: seq<Op>, t: nat)
    requires LegalRun(INITIAL, ops) && Drained(Run(INITIAL, ops))
    ensures var s := Run(INITIAL, ops);
      && !s.active && s.queue == [] && s.pending == []
      && Resolved(s.delivered, t) == (if 1 <= t <= s.nextTicket then 1 else 0)
  {
    InitialInv();
    RunKeeps(INITIAL, ops);
    DrainedDelivers(Run(INITIAL, ops), t);
  }

  lemma DrainedDelivers(s: State, t: nat)
    requires Inv(s) && Drained(s)
    ensures !s.active && s.queue == [] && s.pending == []
    ensures Resolved(s.delivered, t) == if 1 <= t <= s.nextTicket then 1 else 0
  {
    assert !s.active;
    assert Places(s, t) == Resolved(s.delivered, t);
  }

  // ---------- Which re-entrant calls break it ----------

  lemma EndPrologueConserves(s: State, outcome: Outcome, produced: seq<nat>, t: nat)
    requires s.active && !s.currentTerminal && !s.shuttingDown
    ensures Places(EndPrologue(s, outcome, produced), t) == Places(s, t)
  {
    ResolvedPush(s.pending, CurrentTerminal(s, outcome, produced), t);
  }

  lemma {:induction false} RunEntriesConserves(
    s: State, entries: seq<EntryStart>, index: nat, kept: seq<nat>, failures: nat, t: nat)
    requires s.active && !s.currentTerminal && !s.shuttingDown && index <= |entries|
    ensures Places(RunEntries(s, entries, index, kept, failures), t) == Places(s, t)
    decreases |entries| - index
  {
    if index == |entries| {
      var c := s.(cancelMode := NoCancel);
      EndPrologueConserves(c, if kept != [] then Loaded else if failures == 0 then Cancelled else Failed, kept, t);
    } else if entries[index].RefusedBeforeStart? {
      RunEntriesConserves(s, entries, index + 1, kept, failures + 1, t);
    }
  }

  lemma BeginLoadConserves(s: State, script: Prologue, t: nat)
    requires s.active && !s.currentTerminal && !s.shuttingDown
    ensures Places(BeginLoad(s, script), t) == Places(s, t)
  {
    match script
    case PrologueFailed => EndPrologueConserves(s, Failed, [], t);
    case PrologueReused(dataset) => EndPrologueConserves(s, Loaded, [dataset], t);
    case PrologueAtDialog =>
    case PrologueReady(plan) =>
      if s.cancelMode != NoCancel {
        EndPrologueConserves(s.(cancelMode := NoCancel), Cancelled, [], t);
      } else {
        match plan
        case RefusedExpansion => EndPrologueConserves(s, Failed, [], t);
        case SingleInstance(_, _) =>
        case FanOut(entries) => RunEntriesConserves(s, entries, 0, [], 0, t);
      }
  }

  /** Picking up the next request neither loses nor invents a ticket. */
  lemma StartNextConserves(s: State, script: Prologue, t: nat)
    requires !s.active && !s.shuttingDown
    ensures Places(StartNext(s, script), t) == Places(s, t)
  {
    var d := DropFrame(s);
    if d.queue != [] {
      BeginLoadConserves(Dequeue(d), script, t);
    }
  }

  /**
   The worker path's hand-over keeps the accounting exactly when no other load has become current
   while its slots ran, which takes a slot that shuts the loader down and then loads again.
   */
  lemma HandOverExact(s: State, script: Prologue)
    requires Inv(s) && OnTop(s, FinishTail)
    ensures Accounted(EndWorker(s, script)) <==> TailSafe(s, OpFinishTail(script))
  {
    if TailSafe(s, OpFinishTail(script)) {
      EndWorkerKeeps(s, script);
    } else {
      var n := PopCall(s).(cancelMode := NoCancel, active := false);
      StartNextConserves(n, script, s.currentTicket);
      assert Places(s, s.currentTicket) == 1 + Places(n, s.currentTicket);
      assert Places(EndWorker(s, script), s.currentTicket) == 0;
      assert EndWorker(s, script).nextTicket == s.nextTicket by { StartNextMints(n, script); }
    }
  }

  lemma {:induction false} RunEntriesMints(s: State, entries: seq<EntryStart>, index: nat, kept: seq<nat>, failures: nat)
    requires index <= |entries|
    ensures RunEntries(s, entries, index, kept, failures).nextTicket == s.nextTicket
    decreases |entries| - index
  {
    if index < |entries| && entries[index].RefusedBeforeStart? {
      RunEntriesMints(s, entries, index + 1, kept, failures + 1);
    }
  }

  lemma StartNextMints(s: State, script: Prologue)
    ensures StartNext(s, script).nextTicket == s.nextTicket
  {
    if !s.active && DropFrame(s).queue != [] && script.PrologueReady? && script.plan.FanOut? {
      RunEntriesMints(Dequeue(DropFrame(s)), script.plan.entries, 0, [], 0);
    }
  }

  // ---------- Cancel by ticket ----------

  /** Cancel answers true exactly for the tickets that have no terminal yet. */
  lemma CancelAnswersUnresolved(s: State, t: nat, keep: bool)
    requires Inv(s) && t >= 1
    ensures CancelLoad(s, t, keep).1 <==> t <= s.nextTicket && Resolved(s.pending, t) + Resolved(s.delivered, t) == 0
  {
    assert Places(s, t) == if t <= s.nextTicket then 1 else 0;
    QueuedWaits(s.queue, t);
  }

  lemma {:induction false} QueuedWaits(q: seq<Request>, t: nat)
    ensures FindTicket(q, t) < |q| <==> Waiting(q, t) >= 1
  {
    if q != [] && q[0].ticket != t {
      QueuedWaits(q[1..], t);
    }
  }

  /** Cancelling `t` moves no other ticket and latches a stop only when `t` is the current load; repeating it changes nothing. */
  lemma CancelTouchesOnlyItsTicket(s: State, t: nat, keep: bool, u: nat)
    requires Inv(s) && u != t
    ensures var n := CancelLoad(s, t, keep).0;
      && Waiting(n.queue, u) == Waiting(s.queue, u) && Current(n, u) == Current(s, u)
      && Resolved(n.pending, u) == Resolved(s.pending, u) && n.delivered == s.delivered
      && (Current(s, t) == 0 ==> n.cancelMode == s.cancelMode)
      && CancelLoad(n, t, keep).0 == n
  {
    var n := CancelLoad(s, t, keep).0;
    if t != 0 && Queued(s, t) {
      var i := FindTicket(s.queue, t);
      QueuedIsElsewhere(s, i);
      WaitingRemove(s.queue, i, u);
      WaitingRemove(s.queue, i, t);
      ResolvedPush(s.pending, Terminal(t, Cancelled, s.queue[i].identity, 0, []), u);
      QueuedWaits(s.queue, t);
      QueuedWaits(n.queue, t);
      assert Places(s, t) == 1;
      assert !Queued(n, t);
    }
  }

  // ---------- The hand-over that loses a ticket ----------

  /** The first load ended, a slot of its end shut the loader down, and a second load is running. */
  const SECOND_LOAD :=
    INITIAL.(delivered := [Terminal(1, Loaded, "a", 7, [7])], currentTicket := 2, currentIdentity := "b", active := true,
             loadGeneration := 2, nextGeneration := 2, nextTicket := 2, ctx := Some(Context(2, 8, false)),
             worker := Some(LoadWorker(2)), events := [DeliverEvent], calls := [FinishTail])

  const FIRST_DONE :=
    INITIAL.(pending := [Terminal(1, Loaded, "a", 7, [7])], currentTicket := 1, currentIdentity := "a",
             currentTerminal := true, active := true, loadGeneration := 1, nextGeneration := 1, nextTicket := 1,
             events := [DeliverEvent], calls := [FinishTail])

  /** The first load runs on its worker. */
  const ONE_RUNNING :=
    INITIAL.(currentTicket := 1, currentIdentity := "a", active := true, loadGeneration := 1, nextGeneration := 1,
             nextTicket := 1, ctx := Some(Context(1, 7, false)), worker := Some(LoadWorker(1)))

  lemma FirstLoadRuns()
    ensures Step(INITIAL, OpLoad(true, "a", PrologueReady(SingleInstance(7, false)))) == ONE_RUNNING
  {
    assert Dequeue(Enqueue(INITIAL, "a")).queue == [];
  }

  lemma FirstDoneIsReachable()
    ensures exists ops: seq<Op> :: LegalRun(INITIAL, ops) && Run(INITIAL, ops) == FIRST_DONE
  {
    var load := OpLoad(true, "a", PrologueReady(SingleInstance(7, false)));
    var done, dispatch := OpWorkerDone(true), OpDispatch(PrologueFailed, true);
    FirstLoadRuns();
    var posted := ONE_RUNNING.(worker := None, events := [WorkerFinished(1, true)]);
    assert Step(ONE_RUNNING, done) == posted;
    assert Step(posted, dispatch) == FIRST_DONE;
    Extend(posted, dispatch, []);
    Extend(ONE_RUNNING, done, [dispatch] + []);
    Extend(INITIAL, load, [done] + ([dispatch] + []));
  }

  /** The slot's shutdown has run to its end. */
  const SHUT_DOWN :=
    INITIAL.(delivered := FIRST_DONE.pending, nextGeneration := 1, nextTicket := 1, events := [DeliverEvent],
             calls := [FinishTail])

  lemma SlotShutsDown()
    ensures LegalRun(FIRST_DONE, [OpShutdown(true)] + ([OpShutdownTail] + ([OpFlush] + ([OpFlush] + []))))
    ensures Run(FIRST_DONE, [OpShutdown(true)] + ([OpShutdownTail] + ([OpFlush] + ([OpFlush] + [])))) == SHUT_DOWN
  {
    var s1 := FIRST_DONE.(shuttingDown := true, loadGeneration := 0, cancelMode := Discard,
                          calls := [FinishTail, ShutdownTail([])]);
    assert Step(FIRST_DONE, OpShutdown(true)) == s1 by {
      assert Unresolved(FIRST_DONE) == [] && TicketSet([]) == {};
    }
    var s2 := SHUT_DOWN.(pending := FIRST_DONE.pending, delivered := [], calls := [FinishTail, FlushLoop]);
    assert Step(s1, OpShutdownTail) == s2;
    var s3 := SHUT_DOWN.(calls := [FinishTail, FlushLoop]);
    assert Step(s2, OpFlush) == s3 && Step(s3, OpFlush) == SHUT_DOWN;
    Extend(s3, OpFlush, []);
    Extend(s2, OpFlush, [OpFlush] + []);
    Extend(s1, OpShutdownTail, [OpFlush] + ([OpFlush] + []));
    Extend(FIRST_DONE, OpShutdown(true), [OpShutdownTail] + ([OpFlush] + ([OpFlush] + [])));
  }

  lemma SlotLoadsAgain()
    ensures Step(SHUT_DOWN, OpLoad(true, "b", PrologueReady(SingleInstance(8, false)))) == SECOND_LOAD
  {
    assert Dequeue(Enqueue(SHUT_DOWN, "b")).queue == [];
  }

  lemma SecondLoadFollows()
    ensures exists ops: seq<Op> :: LegalRun(FIRST_DONE, ops) && Run(FIRST_DONE, ops) == SECOND_LOAD
  {
    var load := OpLoad(true, "b", PrologueReady(SingleInstance(8, false)));
    SlotShutsDown();
    SlotLoadsAgain();
    Extend(SHUT_DOWN, load, []);
    RunConcat(FIRST_DONE, [OpShutdown(true)] + ([OpShutdownTail] + ([OpFlush] + ([OpFlush] + []))), [load] + []);
  }

  lemma {:induction false} RunConcat(s: State, a: seq<Op>, b: seq<Op>)
    requires LegalRun(s, a) && LegalRun(Run(s, a), b)
    ensures LegalRun(s, a + b) && Run(s, a + b) == Run(Run(s, a), b)
    decreases |a|
  {
    if a == [] {
      assert a + b == b;
    } else {
      RunConcat(Step(s, a[0]), a[1..], b);
      assert (a + b)[1..] == a[1..] + b;
    }
  }

  /**
   The exactly-once promise fails on a reachable state: when the first load's end returns from a slot that shut the
   loader down and loaded again, the second load's ticket is in no place any more.
   */
  lemma HandOverLosesATicket()
    ensures exists ops: seq<Op> :: LegalRun(INITIAL, ops) && Run(INITIAL, ops) == SECOND_LOAD
    ensures Enabled(SECOND_LOAD, OpFinishTail(PrologueFailed))
    ensures var s := Step(SECOND_LOAD, OpFinishTail(PrologueFailed)); s.nextTicket == 2 && Places(s, 2) == 0
  {
    FirstDoneIsReachable();
    SecondLoadFollows();
    var a: seq<Op> :| LegalRun(INITIAL, a) && Run(INITIAL, a) == FIRST_DONE;
    var b: seq<Op> :| LegalRun(FIRST_DONE, b) && Run(FIRST_DONE, b) == SECOND_LOAD;
    RunConcat(INITIAL, a, b);
    assert Resolved(SECOND_LOAD.delivered, 2) == 0;
  }

  // ---------- Stale completions ----------

  /** A completion of a generation that is not current changes nothing but the event queue. */
  lemma StaleCompletionIsDropped(s: State, script: Prologue, replayOk: bool)
    requires s.events != [] && (s.events[0].WorkerFinished? || s.events[0].EntryFinished?)
    requires s.events[0].generation != s.loadGeneration
    ensures Dispatch(s, script, replayOk) == s.(events := s.events[1..])
  {
  }

  /** A generation that is over stays over, across any number of shutdowns and reuses of the loader. */
  lemma {:induction false} GenerationNeverReturns(s: State, ops: seq<Op>, g: nat)
    requires LegalRun(s, ops) && 1 <= g <= s.nextGeneration && s.loadGeneration != g
    ensures Run(s, ops).loadGeneration != g && g <= Run(s, ops).nextGeneration
    decreases |ops|
  {
    if ops != [] {
      GenerationAdvances(s, ops[0]);
      GenerationNeverReturns(Step(s, ops[0]), ops[1..], g);
    }
  }

  /** However long a completion stays posted: once its load is over, running it changes nothing but the event queue. */
  lemma LateCompletionIsDropped(s: State, ops: seq<Op>, g: nat, script: Prologue, replayOk: bool)
    requires LegalRun(s, ops) && 1 <= g <= s.nextGeneration && s.loadGeneration != g
    requires var n := Run(s, ops);
      n.events != [] && (n.events[0].WorkerFinished? || n.events[0].EntryFinished?) && n.events[0].generation == g
    ensures var n := Run(s, ops); Dispatch(n, script, replayOk) == n.(events := n.events[1..])
  {
    GenerationNeverReturns(s, ops, g);
    StaleCompletionIsDropped(Run(s, ops), script, replayOk);
  }

  /** A step keeps the generation, ends it, or starts the next one. */
  ghost predicate Advances(s: State, n: State) {
    && s.nextGeneration <= n.nextGeneration
    && (n.loadGeneration == s.loadGeneration || n.loadGeneration == 0 || n.loadGeneration > s.nextGeneration)
  }

  lemma {:induction false} RunEntriesAdvances(s: State, entries: seq<EntryStart>, index: nat, kept: seq<nat>, failures: nat)
    requires index <= |entries|
    ensures var n := RunEntries(s, entries, index, kept, failures);
      n.loadGeneration == s.loadGeneration && n.nextGeneration == s.nextGeneration
    decreases |entries| - index
  {
    if index < |entries| && entries[index].RefusedBeforeStart? {
      RunEntriesAdvances(s, entries, index + 1, kept, failures + 1);
    }
  }

  lemma PastDialogAdvances(s: State, plan: Plan)
    ensures var n := PastDialog(s, plan); n.loadGeneration == s.loadGeneration && n.nextGeneration == s.nextGeneration
  {
    if plan.FanOut? {
      RunEntriesAdvances(s, plan.entries, 0, [], 0);
    }
  }

  lemma StartNextAdvances(s: State, script: Prologue)
    ensures Advances(s, StartNext(s, script))
  {
    var d := DropFrame(s);
    if !s.active && d.queue != [] && script.PrologueReady? {
      PastDialogAdvances(Dequeue(d), script.plan);
    }
  }

  lemma {:induction false} CancelAllAdvances(s: State, collected: seq<Request>)
    ensures var n := CancelAll(s, collected); n.loadGeneration == s.loadGeneration && n.nextGeneration == s.nextGeneration
    decreases |collected|
  {
    if collected != [] {
      CancelAllAdvances(EmitLoadFinished(s, Terminal(collected[0].ticket, Cancelled, collected[0].identity, 0, [])), collected[1..]);
    }
  }

  lemma ResumeEntryAdvances(s: State, ok: bool)
    requires s.frame.EntryFrame? && s.frame.index < |s.frame.entries| && s.frame.entries[s.frame.index].Started?
    ensures var n := ResumeEntry(s, ok); n.loadGeneration == s.loadGeneration && n.nextGeneration == s.nextGeneration
  {
    var n := s.(frame := NoFrame, worker := None);
    if n.cancelMode == NoCancel {
      RunEntriesAdvances(n, s.frame.entries, s.frame.index + 1, KeptAfter(s, ok), FailuresAfter(s, ok));
    }
  }

  lemma WorkerFinishedAdvances(s: State, g: nat, startOk: bool, replayOk: bool)
    ensures Advances(s, OnWorkerFinished(s, g, startOk, replayOk))
  {
  }

  lemma DispatchAdvances(s: State, script: Prologue, replayOk: bool)
    requires s.events != []
    ensures Advances(s, Dispatch(s, script, replayOk))
  {
    var n := s.(events := s.events[1..]);
    match s.events[0]
    case StartNextEvent => StartNextAdvances(n, script);
    case WorkerFinished(g, ok) => WorkerFinishedAdvances(n, g, ok, replayOk);
    case EntryFinished(g, i, ok) =>
      if Awaits(n, g, i) {
        ResumeEntryAdvances(n, ok);
      }
    case _ =>
  }

  lemma LoadAdvances(s: State, usable: bool, identity: string, script: Prologue)
    ensures Advances(s, LoadFileTicketed(s, usable, identity, script))
  {
    StartNextAdvances(Enqueue(s, identity), script);
  }

  lemma AnswerDialogAdvances(s: State, answer: DialogAnswer)
    requires s.frame.DialogFrame?
    ensures Advances(s, AnswerDialog(s, answer))
  {
    if answer.Accepted? {
      PastDialogAdvances(s.(frame := NoFrame), answer.plan);
    }
  }

  lemma EndShutdownAdvances(s: State)
    requires InWindow(s)
    ensures Advances(s, EndShutdown(s))
  {
    CancelAllAdvances(Reset(s), s.calls[|s.calls| - 1].collected);
  }

  lemma CancelAdvances(s: State, op: Op)
    requires op.OpCancelLoad? || op.OpCancelLoadAsync? || op.OpCancelCurrent? || op.OpCancelGeneration? || op.OpStopRow?
    requires Enabled(s, op)
    ensures Advances(s, Step(s, op))
  {
  }

  lemma ShutdownAdvances(s: State, op: Op)
    requires op.OpWorkerDone? || op.OpShutdown? || op.OpDestroy? || op.OpFlush?
    requires Enabled(s, op)
    ensures Advances(s, Step(s, op))
  {
  }

  lemma GenerationAdvances(s: State, op: Op)
    requires Enabled(s, op)
    ensures Advances(s, Step(s, op))
  {
    match op
    case OpLoad(usable, identity, script) => LoadAdvances(s, usable, identity, script);
    case OpAnswerDialog(answer) => AnswerDialogAdvances(s, answer);
    case OpDispatch(script, replayOk) => DispatchAdvances(s, script, replayOk);
    case OpFinishTail(script) => StartNextAdvances(PopCall(s).(cancelMode := NoCancel, active := false), script);
    case OpShutdownTail => EndShutdownAdvances(s);
    case OpWorkerDone(_) => ShutdownAdvances(s, op);
    case OpShutdown(_) => ShutdownAdvances(s, op);
    case OpDestroy(_) => ShutdownAdvances(s, op);
    case OpFlush => ShutdownAdvances(s, op);
    case _ => CancelAdvances(s, op);
  }
}
