/**
 The file loader object itself. Its methods update the fields in place, one assignment at a time. A valid loader has
 every accepted ticket in exactly one place; the calls it offers take it to the state the ticket machine names and leave
 it valid, and a shutdown nobody interrupts delivers every ticket.
 */
module FileLoading {
  import opened Basics
  import opened LoadTickets
  import opened LoadTicketSafety
  import LoadTicketTheorems
  import opened LoadOutcomes

  class FileLoader {
    var queue: seq<Request>
    var pendingTerminals: seq<Terminal>
    var currentTicket: nat
    var currentIdentity: string
    var currentTerminal: bool
    var activeLoad: bool
    var cancelMode: CancelMode
    var loadGeneration: nat
    var nextGeneration: nat
    var nextTicket: nat
    var shuttingDown: bool
    var destroying: bool
    var frame: Frame
    var ctx: Option<Context>
    var worker: Option<Worker>
    var posted: seq<Event>
    var calls: seq<Call>                // calls that still have work to do once their observers return
    ghost var delivered: seq<Terminal>  // loadFinished emissions so far
    ghost var stopped: set<nat>

    ghost function View(): State
      reads this
    {
      State(queue, pendingTerminals, delivered, currentTicket, currentIdentity, currentTerminal, activeLoad, cancelMode,
            loadGeneration, nextGeneration, nextTicket, shuttingDown, destroying, frame, ctx, worker, posted, calls,
            stopped)
    }

    /** Every accepted ticket is in exactly one place, and whatever is unresolved is bound to be acted on. */
    ghost predicate Valid()
      reads this
    {
      Inv(View())
    }

    /** The operation just done is `op`. */
    lemma Kept(was: State, op: Op)
      requires Inv(was) && Legal(was, op) && View() == Step(was, op)
      ensures Valid()
    {
      StepKeeps(was, op);
    }

    constructor ()
      ensures Valid() && View() == INITIAL
    {
      queue, pendingTerminals, posted := [], [], [];
      currentTicket, currentIdentity, currentTerminal := 0, "", false;
      activeLoad, cancelMode, shuttingDown, destroying := false, NoCancel, false, false;
      loadGeneration, nextGeneration, nextTicket := 0, 0, 0;
      frame, ctx, worker := NoFrame, None, None;
      delivered, calls, stopped := [], [], {};
    }

    method EmitLoadFinished(t: Terminal)
      modifies this
      ensures View() == LoadTickets.EmitLoadFinished(old(View()), t)
    {
      if t.ticket == currentTicket {
        if currentTerminal {
          return;
        }
        currentTerminal := true;
      }
      pendingTerminals := pendingTerminals + [t];
      posted := posted + [DeliverEvent];
    }

    method FinishPrologue()
      modifies this
      ensures View() == LoadTickets.FinishPrologue(old(View()))
    {
      if shuttingDown {
        return;
      }
      activeLoad := false;
      posted := posted + [StartNextEvent];
    }

    /** A prologue exit: the terminal first, then the scope guard that hands the queue on. */
    method EndPrologue(outcome: Outcome, produced: seq<nat>)
      modifies this
      ensures View() == LoadTickets.EndPrologue(old(View()), outcome, produced)
    {
      var dataset := if produced == [] then 0 else produced[0];
      EmitLoadFinished(Terminal(currentTicket, outcome, currentIdentity, dataset, produced));
      FinishPrologue();
    }

    /** The fan-out loop up to the next import on the worker; past the last entry it runs the epilogue. */
    method RunEntries(entries: seq<EntryStart>, first: nat, kept: seq<nat>, failuresBefore: nat)
      requires first <= |entries|
      modifies this
      ensures View() == LoadTickets.RunEntries(old(View()), entries, first, kept, failuresBefore)
    {
      var index, failures := first, failuresBefore;
      while index < |entries| && entries[index].RefusedBeforeStart?
        invariant first <= index <= |entries|
        invariant View() == old(View())
        invariant LoadTickets.RunEntries(View(), entries, index, kept, failures)
               == LoadTickets.RunEntries(old(View()), entries, first, kept, failuresBefore)
      {
        index, failures := index + 1, failures + 1;
      }
      if index < |entries| {
        frame := EntryFrame(entries, index, kept, failures, NoCancel);
        worker := Some(EntryWorker(loadGeneration, index));
      } else {
        FanOutEpilogue(kept, failures, NoCancel);
      }
    }

    method FanOutEpilogue(kept: seq<nat>, failures: nat, wholeStop: CancelMode)
      modifies this
      ensures View() == LoadTickets.FanOutEpilogue(old(View()), kept, failures, wholeStop)
    {
      cancelMode := NoCancel;
      var survivors := if wholeStop == Discard then [] else kept;
      if survivors == [] {
        if wholeStop == Discard || failures == 0 {
          EndPrologue(Cancelled, []);
        } else {
          EndPrologue(Failed, []);
        }
      } else {
        EndPrologue(if wholeStop != NoCancel then Cancelled else Loaded, survivors);
      }
    }

    /** The fan-out continuation: classify the entry that returned, then stop or go on. */
    method ResumeEntry(startOk: bool)
      requires frame.EntryFrame? && frame.index < |frame.entries| && frame.entries[frame.index].Started?
      modifies this
      ensures View() == LoadTickets.ResumeEntry(old(View()), startOk)
    {
      var f := frame;
      var wholeStop := cancelMode;
      var action := if wholeStop != NoCancel then wholeStop else f.rowStop;
      var kept, failures := f.kept, f.failures;
      match action {
        case Discard =>
        case Keep => kept := kept + [f.entries[f.index].dataset];
        case NoCancel =>
          if startOk {
            kept := kept + [f.entries[f.index].dataset];
          } else {
            failures := failures + 1;
          }
      }
      frame, worker := NoFrame, None;
      if wholeStop != NoCancel {
        FanOutEpilogue(kept, failures, wholeStop);
      } else {
        RunEntries(f.entries, f.index + 1, kept, failures);
      }
    }

    /** Hands the load to its worker. */
    method StartImport(dataset: nat, replacing: bool)
      modifies this
      ensures View() == old(View()).(ctx := Some(Context(currentTicket, dataset, replacing)),
                                     worker := Some(LoadWorker(loadGeneration)))
    {
      ctx := Some(Context(currentTicket, dataset, replacing));
      worker := Some(LoadWorker(loadGeneration));
    }

    method PastDialog(plan: Plan)
      modifies this
      ensures View() == LoadTickets.PastDialog(old(View()), plan)
    {
      if cancelMode != NoCancel {
        cancelMode := NoCancel;
        EndPrologue(Cancelled, []);
        return;
      }
      match plan {
        case RefusedExpansion => EndPrologue(Failed, []);
        case SingleInstance(dataset, replacing) => StartImport(dataset, replacing);
        case FanOut(entries) => RunEntries(entries, 0, [], 0);
      }
    }

    method BeginLoad(script: Prologue)
      modifies this
      ensures View() == LoadTickets.BeginLoad(old(View()), script)
    {
      match script {
        case PrologueFailed => EndPrologue(Failed, []);
        case PrologueReused(dataset) => EndPrologue(Loaded, [dataset]);
        case PrologueAtDialog => frame := DialogFrame;
        case PrologueReady(plan) => PastDialog(plan);
      }
    }

    /** Destroys the coroutine frame of the previous load. */
    method DropFrame()
      modifies this
      ensures View() == LoadTickets.DropFrame(old(View()))
    {
      if !frame.NoFrame? {
        frame := NoFrame;
        FinishPrologue();
      }
    }

    method NextGeneration()
      modifies this
      ensures View() == old(View()).(active := true, nextGeneration := old(nextGeneration) + 1,
                                     loadGeneration := old(nextGeneration) + 1)
    {
      activeLoad := true;
      nextGeneration := nextGeneration + 1;
      loadGeneration := nextGeneration;
    }

    method NameCurrent(ticket: nat, identity: string)
      modifies this
      ensures View() == old(View()).(currentTicket := ticket, currentIdentity := identity, currentTerminal := false)
    {
      currentTicket := ticket;
      currentIdentity := identity;
      currentTerminal := false;
    }

    /** Makes the front request the current load; ticket and generation advance together. */
    method TakeRequest()
      requires queue != []
      modifies this
      ensures View() == Dequeue(old(View()))
    {
      var request := queue[0];
      queue := queue[1..];
      NextGeneration();
      NameCurrent(request.ticket, request.identity);
    }

    method StartNext(script: Prologue)
      modifies this
      ensures View() == LoadTickets.StartNext(old(View()), script)
    {
      if activeLoad {
        return;
      }
      DropFrame();
      if queue == [] {
        loadGeneration := 0;
        NameCurrent(0, "");
      } else {
        TakeRequest();
        BeginLoad(script);
      }
    }

    method PushRequest(identity: string) returns (ticket: nat)
      modifies this
      ensures View() == Enqueue(old(View()), identity) && ticket == nextTicket
    {
      nextTicket := nextTicket + 1;
      ticket := nextTicket;
      queue := queue + [Request(ticket, identity)];
    }

    method MarkStopped()
      modifies this
      ensures View() == old(View()).(stopped := old(stopped) + {currentTicket})
    {
      stopped := stopped + {currentTicket};
    }

    method LeaveDialog(answer: DialogAnswer)
      requires frame.DialogFrame?
      modifies this
      ensures View() == LoadTickets.AnswerDialog(old(View()), answer)
    {
      frame := NoFrame;
      match answer {
        case ContractViolation => EndPrologue(Failed, []);
        case ConfigRefused => EndPrologue(Failed, []);
        case Rejected =>
          MarkStopped();
          EndPrologue(Cancelled, []);
        case Accepted(plan) => PastDialog(plan);
      }
    }

    /** Classifies a worker load that returned. */
    method ClassifyWorker(startOk: bool, replayOk: bool) returns (t: Terminal)
      requires ctx.Some?
      ensures t == WorkerTerminal(View(), startOk, replayOk)
    {
      var c := ctx.value;
      if cancelMode == Discard {
        t := Terminal(c.ticket, Cancelled, currentIdentity, 0, []);
      } else if !startOk && cancelMode == NoCancel {
        t := Terminal(c.ticket, Failed, currentIdentity, 0, []);
      } else if c.replacing && !replayOk {
        t := Terminal(c.ticket, if cancelMode == NoCancel then Failed else Cancelled, currentIdentity, 0, []);
      } else {
        var outcome := if cancelMode == Keep then Cancelled else Loaded;
        t := Terminal(c.ticket, outcome, currentIdentity, c.dataset, [c.dataset]);
      }
    }

    /**
     The worker's completion, up to the slots it runs; FinishTail is the rest of the same call. One that finds its load
     schedules a single terminal: Cancelled if a stop was latched, Failed if the plugin or the replay of a replacing load
     failed, Loaded otherwise, naming the dataset exactly when its rows stay.
     */
    method OnWorkerFinished(generation: nat, startOk: bool, replayOk: bool)
      modifies this
      ensures View() == LoadTickets.OnWorkerFinished(old(View()), generation, startOk, replayOk)
      ensures old(Flags(View())) && generation == old(loadGeneration) && old(ctx).Some? ==>
        && |pendingTerminals| == |old(pendingTerminals)| + 1
        && var t := pendingTerminals[|pendingTerminals| - 1];
           && Schedules(old(View()), View(), t) && t.identity == old(currentIdentity)
           && TellsWorkerEnd(t, old(ctx).value, old(cancelMode), startOk, replayOk)
    {
      Told(View(), generation, startOk, replayOk);
      if generation != loadGeneration || ctx.None? {
        return;
      }
      var t := ClassifyWorker(startOk, replayOk);
      worker := None;
      assert View() == old(View()).(worker := None);
      EmitLoadFinished(t);
      LeaveContext();
    }

    lemma Told(s: State, generation: nat, startOk: bool, replayOk: bool)
      ensures Flags(s) && generation == s.loadGeneration && s.ctx.Some? ==>
        exists t :: TellsWorkerEnd(t, s.ctx.value, s.cancelMode, startOk, replayOk) && t.identity == s.currentIdentity
                    && Schedules(s, LoadTickets.OnWorkerFinished(s, generation, startOk, replayOk), t)
    {
      if Flags(s) && generation == s.loadGeneration && s.ctx.Some? {
        var t := WorkerEndTells(s, generation, startOk, replayOk);
      }
    }

    method LeaveContext()
      modifies this
      ensures View() == old(View()).(ctx := None, calls := old(calls) + [FinishTail])
    {
      ctx := None;
      calls := calls + [FinishTail];
    }

    method LeaveWorker(script: Prologue)
      requires calls != []
      modifies this
      ensures View() == LoadTickets.EndWorker(old(View()), script)
    {
      calls := calls[..|calls| - 1];
      cancelMode := NoCancel;
      activeLoad := false;
      assert View() == PopCall(old(View())).(cancelMode := NoCancel, active := false);
      StartNext(script);
    }

    method CancelCurrent(keep: bool)
      modifies this
      ensures View() == LoadTickets.CancelCurrent(old(View()), keep)
    {
      if activeLoad {
        cancelMode := if keep then Keep else Discard;
        stopped := stopped + {currentTicket};
      }
    }

    method CancelGeneration(generation: nat, keep: bool)
      modifies this
      ensures View() == LoadTickets.CancelGeneration(old(View()), generation, keep)
    {
      if generation == 0 || generation != loadGeneration || !activeLoad {
        return;
      }
      CancelCurrent(keep);
    }

    method CancelTicket(ticket: nat, keep: bool) returns (accepted: bool)
      modifies this
      ensures (View(), accepted) == LoadTickets.CancelLoad(old(View()), ticket, keep)
    {
      if ticket == 0 {
        return false;
      }
      var i := 0;
      while i < |queue|
        invariant i <= |queue| && View() == old(View())
        invariant forall j :: 0 <= j < i ==> queue[j].ticket != ticket
      {
        if queue[i].ticket == ticket {
          var identity := queue[i].identity;
          queue := queue[..i] + queue[i + 1..];
          stopped := stopped + {ticket};
          EmitLoadFinished(Terminal(ticket, Cancelled, identity, 0, []));
          return true;
        }
        i := i + 1;
      }
      if ticket != currentTicket || !activeLoad || currentTerminal {
        return false;
      }
      CancelGeneration(loadGeneration, keep);
      return true;
    }

    /** Returns the terminal to announce, if one was still pending. */
    method DeliverPendingTerminal() returns (t: Option<Terminal>)
      modifies this
      ensures View() == DeliverPending(old(View()))
      ensures t == if old(pendingTerminals) == [] then None else Some(old(pendingTerminals)[0])
    {
      if pendingTerminals == [] {
        return None;
      }
      t := Some(pendingTerminals[0]);
      pendingTerminals := pendingTerminals[1..];
      delivered := delivered + [t.value];
    }

    /** A worker's last act is to post its completion; shutdown waits for it. */
    method WaitForWorker(startOk: bool)
      modifies this
      ensures View() == FinishWorker(old(View()), startOk)
    {
      match worker {
        case None =>
        case Some(LoadWorker(g)) => posted := posted + [WorkerFinished(g, startOk)];
        case Some(EntryWorker(g, i)) => posted := posted + [EntryFinished(g, i, startOk)];
      }
      worker := None;
    }

    /** The first half of joinForShutdown: collect what it discards, invalidate, and join the worker. */
    method CollectForShutdown(startOk: bool) returns (collected: seq<Request>)
      modifies this
      ensures collected == Unresolved(old(View()))
      ensures View() == LoadTickets.BeginShutdown(old(View()), startOk)
    {
      collected := if activeLoad && !currentTerminal then [Request(currentTicket, currentIdentity)] else [];
      collected := collected + queue;
      shuttingDown := true;
      loadGeneration := 0;
      cancelMode := Discard;
      assert View() == old(View()).(shuttingDown := true, loadGeneration := 0, cancelMode := Discard);
      WaitForWorker(startOk);
      PushShutdown(collected);
    }

    method PushShutdown(collected: seq<Request>)
      modifies this
      ensures View() == old(View()).(calls := old(calls) + [ShutdownTail(collected)],
                                     stopped := old(stopped) + TicketSet(collected))
    {
      calls := calls + [ShutdownTail(collected)];
      stopped := stopped + TicketSet(collected);
    }

    /** Drops the frame, the load context and every queued request. */
    method DropLoads()
      modifies this
      ensures View() == old(View()).(frame := NoFrame, ctx := None, queue := [], active := false)
    {
      frame, ctx, queue, activeLoad := NoFrame, None, [], false;
    }

    method Reset()
      requires calls != []
      modifies this
      ensures View() == LoadTickets.Reset(old(View()))
    {
      calls := calls[..|calls| - 1];
      DropLoads();
      NameCurrent(0, "");
      cancelMode, shuttingDown := NoCancel, false;
    }

    /** The second half of joinForShutdown, up to its flush. */
    method LeaveShutdown(collected: seq<Request>)
      requires OnTop(View(), ShutdownTail(collected))
      modifies this
      ensures View() == LoadTickets.EndShutdown(old(View()))
    {
      Reset();
      CancelCollected(collected);
      calls := calls + [FlushLoop];
    }

    method CancelCollected(collected: seq<Request>)
      modifies this
      ensures View() == CancelAll(old(View()), collected)
    {
      var i := 0;
      while i < |collected|
        invariant i <= |collected|
        invariant CancelAll(View(), collected[i..]) == CancelAll(old(View()), collected)
      {
        EmitLoadFinished(Terminal(collected[i].ticket, Cancelled, collected[i].identity, 0, []));
        i := i + 1;
      }
    }

    /** Runs the oldest posted call. */
    method DispatchFront(script: Prologue, replayOk: bool)
      requires posted != []
      modifies this
      ensures View() == LoadTickets.Dispatch(old(View()), script, replayOk)
    {
      var event := posted[0];
      posted := posted[1..];
      match event {
        case StartNextEvent => StartNext(script);
        case DeliverEvent => var t := DeliverPendingTerminal();
        case WorkerFinished(g, ok) => OnWorkerFinished(g, ok, replayOk);
        case EntryFinished(g, i, ok) =>
          if Awaited(g, i) {
            ResumeEntry(ok);
          }
        case CancelEvent(ticket, keep) => var accepted := CancelTicket(ticket, keep);
      }
    }

    predicate Awaited(g: nat, i: nat)
      reads this
    {
      && g == loadGeneration && frame.EntryFrame? && frame.index == i
      && i < |frame.entries| && frame.entries[i].Started?
    }

    // ---------- What the loader offers, and its event loop ----------

    /**
     The ticketed enqueue. An accepted request's ticket is new and has its one place; a refused one gets 0 and, unless
     the loader is being destroyed, a fileLoadFailed signal (`failed`).
     */
    method LoadFileTicketed(usable: bool, identity: string, script: Prologue) returns (ticket: nat, failed: bool)
      requires Valid() && Legal(View(), OpLoad(usable, identity, script))
      modifies this
      ensures Valid() && View() == LoadTickets.LoadFileTicketed(old(View()), usable, identity, script)
      ensures failed <==> !usable && !old(destroying)
      ensures ticket == 0 <==> !usable || old(destroying)
      ensures ticket != 0 ==> ticket == nextTicket && Places(old(View()), ticket) == 0 && Places(View(), ticket) == 1
    {
      ticket, failed := 0, !usable && !destroying;
      if usable && !destroying {
        ticket := PushRequest(identity);
        StartNext(script);
      }
      Kept(old(View()), OpLoad(usable, identity, script));
      Minted(old(View()), usable, identity, script);
    }

    lemma Minted(was: State, usable: bool, identity: string, script: Prologue)
      requires Inv(was) && Legal(was, OpLoad(usable, identity, script))
      ensures var n := LoadTickets.LoadFileTicketed(was, usable, identity, script);
        Accepts(was, usable) ==> n.nextTicket == was.nextTicket + 1 && Places(was, n.nextTicket) == 0
                                 && Places(n, n.nextTicket) == 1
    {
      if Accepts(was, usable) {
        LoadTicketTheorems.StartNextMints(Enqueue(was, identity), script);
        StepKeeps(was, OpLoad(usable, identity, script));
      }
    }

    /** True exactly for a ticket that has no terminal yet; no other ticket moves. */
    method CancelLoad(ticket: nat, keep: bool) returns (accepted: bool)
      requires Valid() && Legal(View(), OpCancelLoad(ticket, keep))
      modifies this
      ensures Valid() && View() == LoadTickets.CancelLoad(old(View()), ticket, keep).0
      ensures accepted <==> 1 <= ticket <= old(nextTicket)
                            && Resolved(old(pendingTerminals), ticket) + Resolved(old(delivered), ticket) == 0
      ensures forall u: nat :: u != ticket ==> Resolved(pendingTerminals, u) == Resolved(old(pendingTerminals), u)
      ensures delivered == old(delivered)
    {
      accepted := CancelTicket(ticket, keep);
      Kept(old(View()), OpCancelLoad(ticket, keep));
      if ticket != 0 { LoadTicketTheorems.CancelAnswersUnresolved(old(View()), ticket, keep); }
      forall u: nat | u != ticket ensures Resolved(pendingTerminals, u) == Resolved(old(pendingTerminals), u) {
        LoadTicketTheorems.CancelTouchesOnlyItsTicket(old(View()), ticket, keep, u);
      }
      LoadTicketTheorems.CancelTouchesOnlyItsTicket(old(View()), ticket, keep, ticket + 1);
    }

    method AnswerDialog(answer: DialogAnswer)
      requires Valid() && Legal(View(), OpAnswerDialog(answer))
      modifies this
      ensures Valid() && View() == LoadTickets.AnswerDialog(old(View()), answer)
    {
      LeaveDialog(answer);
      Kept(old(View()), OpAnswerDialog(answer));
    }

    /** What follows the slots of a worker's completion; they have not made another load current. */
    method EndWorker(script: Prologue)
      requires Valid() && Legal(View(), OpFinishTail(script))
      modifies this
      ensures Valid() && View() == LoadTickets.EndWorker(old(View()), script)
    {
      LeaveWorker(script);
      Kept(old(View()), OpFinishTail(script));
    }

    /** Runs the oldest posted call. */
    method Dispatch(script: Prologue, replayOk: bool)
      requires Valid() && Legal(View(), OpDispatch(script, replayOk))
      modifies this
      ensures Valid() && View() == LoadTickets.Dispatch(old(View()), script, replayOk)
    {
      DispatchFront(script, replayOk);
      Kept(old(View()), OpDispatch(script, replayOk));
    }

    /** The first half of joinForShutdown, up to its observers. */
    method BeginShutdown(startOk: bool) returns (collected: seq<Request>)
      requires Valid() && !shuttingDown
      modifies this
      ensures Valid() && View() == LoadTickets.BeginShutdown(old(View()), startOk)
      ensures OnTop(View(), ShutdownTail(collected))
    {
      collected := CollectForShutdown(startOk);
      Kept(old(View()), OpShutdown(startOk));
    }

    /** The second half, up to its flush: nothing waits any more outside the pending terminals. */
    method EndShutdown(collected: seq<Request>)
      requires Valid() && OnTop(View(), ShutdownTail(collected))
      modifies this
      ensures Valid() && View() == LoadTickets.EndShutdown(old(View()))
      ensures queue == [] && !activeLoad && nextTicket == old(nextTicket)
      ensures calls == old(calls)[..|old(calls)| - 1] + [FlushLoop]
      ensures pendingTerminals == old(pendingTerminals) + CancelledTerminals(collected)
    {
      LeaveShutdown(collected);
      Kept(old(View()), OpShutdownTail);
      EndShutdownKeeps(old(View()));
      ShutdownTells(old(View()));
      UnresolvedPositive(old(View()));
      CancelAllForm(LoadTickets.Reset(old(View())), collected, 0);
    }

    /** One turn of the flush loop. */
    method FlushOnce()
      requires Valid() && OnTop(View(), FlushLoop)
      modifies this
      ensures Valid() && View() == FlushStep(old(View()))
    {
      if pendingTerminals == [] {
        calls := calls[..|calls| - 1];
      } else {
        var t := DeliverPendingTerminal();
      }
      Kept(old(View()), OpFlush);
    }

    /** The whole of joinForShutdown when no observer re-enters the loader: every ticket has been delivered, once. */
    method JoinForShutdown(startOk: bool)
      requires Valid() && !shuttingDown
      modifies this
      ensures Valid() && calls == old(calls) && queue == [] && !activeLoad && pendingTerminals == []
      ensures nextTicket == old(nextTicket)
      ensures forall t: nat :: Resolved(delivered, t) == if 1 <= t <= nextTicket then 1 else 0
    {
      var collected := BeginShutdown(startOk);
      assert calls == old(calls) + [ShutdownTail(collected)] && nextTicket == old(nextTicket);
      EndShutdown(collected);
      FlushAll();
      AllDelivered(View());
    }

    /** The flush loop to its end. */
    method FlushAll()
      requires Valid() && OnTop(View(), FlushLoop) && queue == [] && !activeLoad
      modifies this
      ensures Valid() && calls == old(calls)[..|old(calls)| - 1] && queue == [] && !activeLoad && pendingTerminals == []
      ensures nextTicket == old(nextTicket)
    {
      while pendingTerminals != []
        invariant Valid() && queue == [] && !activeLoad && nextTicket == old(nextTicket)
        invariant calls == old(calls)
        decreases |pendingTerminals|
      {
        FlushOnce();
      }
      FlushOnce();
    }

    lemma AllDelivered(s: State)
      requires Inv(s) && s.queue == [] && !s.active && s.pending == []
      ensures forall t: nat :: Resolved(s.delivered, t) == if 1 <= t <= s.nextTicket then 1 else 0
    {
      forall t: nat ensures Resolved(s.delivered, t) == if 1 <= t <= s.nextTicket then 1 else 0 {
        assert Places(s, t) == Resolved(s.delivered, t);
      }
    }

    // ---------- Whole runs ----------

    method LatchStop(op: Op)
      requires Valid() && Legal(View(), op)
      requires op.OpCancelLoadAsync? || op.OpCancelCurrent? || op.OpCancelGeneration? || op.OpStopRow?
      modifies this
      ensures Valid() && View() == Step(old(View()), op)
    {
      match op {
        case OpCancelLoadAsync(t, keep) => posted := posted + [CancelEvent(t, keep)];
        case OpCancelCurrent(keep) => CancelCurrent(keep);
        case OpCancelGeneration(g, keep) => CancelGeneration(g, keep);
        case OpStopRow(g, i, keep) =>
          if g == loadGeneration && frame.EntryFrame? && frame.index == i {
            frame := frame.(rowStop := if keep then Keep else Discard);
            stopped := stopped + {currentTicket};
          }
      }
      Kept(old(View()), op);
    }

    method Unwind(op: Op)
      requires Valid() && Legal(View(), op)
      requires op.OpWorkerDone? || op.OpShutdown? || op.OpDestroy? || op.OpShutdownTail? || op.OpFlush?
      modifies this
      ensures Valid() && View() == Step(old(View()), op)
    {
      match op {
        case OpWorkerDone(ok) =>
          WaitForWorker(ok);
          Kept(old(View()), op);
        case OpShutdown(ok) => var collected := BeginShutdown(ok);
        case OpDestroy(ok) =>
          destroying := true;
          var collected := CollectForShutdown(ok);
          Kept(old(View()), op);
        case OpShutdownTail => EndShutdown(calls[|calls| - 1].collected);
        case OpFlush => FlushOnce();
      }
    }

    /** One step of the event loop, of a worker, or of an observer's slot. */
    method Perform(op: Op)
      requires Valid() && Legal(View(), op)
      modifies this
      ensures Valid() && View() == Step(old(View()), op)
    {
      match op {
        case OpLoad(usable, identity, script) => var t, failed := LoadFileTicketed(usable, identity, script);
        case OpCancelLoad(t, keep) => var accepted := CancelLoad(t, keep);
        case OpAnswerDialog(answer) => AnswerDialog(answer);
        case OpDispatch(script, replayOk) => Dispatch(script, replayOk);
        case OpFinishTail(script) => EndWorker(script);
        case OpCancelLoadAsync(_, _) => LatchStop(op);
        case OpCancelCurrent(_) => LatchStop(op);
        case OpCancelGeneration(_, _) => LatchStop(op);
        case OpStopRow(_, _, _) => LatchStop(op);
        case OpWorkerDone(_) => Unwind(op);
        case OpShutdown(_) => Unwind(op);
        case OpDestroy(_) => Unwind(op);
        case OpShutdownTail => Unwind(op);
        case OpFlush => Unwind(op);
      }
    }

    /** The object follows every legal run: afterwards each ticket it has given out is in exactly one place. */
    method PerformAll(ops: seq<Op>)
      requires Valid() && LegalRun(View(), ops)
      modifies this
      ensures Valid() && View() == Run(old(View()), ops)
      ensures forall t: nat :: Places(View(), t) == if 1 <= t <= nextTicket then 1 else 0
    {
      for k := 0 to |ops|
        invariant Valid() && LegalRun(View(), ops[k..])
        invariant Run(View(), ops[k..]) == Run(old(View()), ops)
      {
        assert ops[k..][1..] == ops[k + 1..];
        Perform(ops[k]);
      }
    }
  }
}
