/**
 What every run of the ticketed load queue keeps: each accepted ticket is in exactly one place, and
 the event loop cannot run dry while a request is unresolved.
 */
module LoadTicketSafety {
  import opened Basics
  import opened LoadTickets

  // ---------- Where a ticket is ----------

  ghost function Waiting(q: seq<Request>, t: nat): nat {
    if q == [] then 0 else (if q[0].ticket == t then 1 else 0) + Waiting(q[1..], t)
  }

  ghost function Resolved(ts: seq<Terminal>, t: nat): nat {
    if ts == [] then 0 else (if ts[0].ticket == t then 1 else 0) + Resolved(ts[1..], t)
  }

  ghost function Current(s: State, t: nat): nat {
    if s.active && !s.currentTerminal && s.currentTicket == t then 1 else 0
  }

  /** The number of places ticket `t` is in: queued, current and unresolved, pending delivery, delivered. */
  ghost function Places(s: State, t: nat): nat {
    Waiting(s.queue, t) + Current(s, t) + Resolved(s.pending, t) + Resolved(s.delivered, t)
  }

  /** Every minted ticket is in exactly one place, and nothing else is anywhere. */
  ghost predicate Accounted(s: State) {
    forall t: nat :: Places(s, t) == if 1 <= t <= s.nextTicket then 1 else 0
  }

  /** The loader still names a load that has ended only together with that load's terminal. */
  ghost predicate Remembered(s: State) {
    s.currentTicket != 0 && !(s.active && !s.currentTerminal) ==>
      s.currentTerminal && Resolved(s.pending, s.currentTicket) + Resolved(s.delivered, s.currentTicket) == 1
  }

  ghost predicate LedgerInv(s: State) {
    Accounted(s) && Remembered(s)
  }

  lemma {:induction false} WaitingPush(q: seq<Request>, r: Request, t: nat)
    ensures Waiting(q + [r], t) == Waiting(q, t) + if r.ticket == t then 1 else 0
  {
    if q == [] {
      assert q + [r] == [r];
    } else {
      assert (q + [r])[1..] == q[1..] + [r];
      WaitingPush(q[1..], r, t);
    }
  }

  lemma {:induction false} WaitingRemove(q: seq<Request>, i: nat, t: nat)
    requires i < |q|
    ensures Waiting(q, t) == Waiting(q[..i] + q[i + 1..], t) + if q[i].ticket == t then 1 else 0
  {
    var r := q[..i] + q[i + 1..];
    if i == 0 {
      assert r == q[1..];
    } else {
      WaitingRemove(q[1..], i - 1, t);
      assert r[1..] == q[1..][..i - 1] + q[1..][i..];
    }
  }

  lemma {:induction false} ResolvedPush(ts: seq<Terminal>, x: Terminal, t: nat)
    ensures Resolved(ts + [x], t) == Resolved(ts, t) + if x.ticket == t then 1 else 0
  {
    if ts == [] {
      assert ts + [x] == [x];
    } else {
      assert (ts + [x])[1..] == ts[1..] + [x];
      ResolvedPush(ts[1..], x, t);
    }
  }

  // ---------- Control invariant ----------

  ghost predicate Live(s: State) {
    s.frame != NoFrame || s.ctx.Some?
  }

  ghost predicate CallsShape(calls: seq<Call>) {
    && (forall i :: 0 < i < |calls| ==> calls[i] != FinishTail)
    && (forall i :: 0 <= i < |calls| - 1 ==> !calls[i].ShutdownTail?)
  }

  ghost predicate UnderFinish(s: State) {
    s.calls != [] && s.calls[0] == FinishTail
  }

  ghost predicate FrameShape(f: Frame) {
    f.EntryFrame? ==> f.index < |f.entries| && f.entries[f.index].Started?
  }

  /** What the loader's flags say about each other. */
  ghost predicate Flags(s: State) {
    && (s.active && !s.currentTerminal <==> Live(s))
    && (s.frame != NoFrame ==> s.ctx.None?)
    && (s.ctx.Some? ==> s.ctx.value.ticket == s.currentTicket)
    && (s.active && s.currentTerminal ==> UnderFinish(s))
    && (s.active ==> 1 <= s.currentTicket)
    && (s.active && !InWindow(s) ==> 1 <= s.loadGeneration == s.nextGeneration)
    && s.loadGeneration <= s.nextGeneration
    && (s.shuttingDown <==> InWindow(s))
    && (InWindow(s) ==> s.cancelMode != NoCancel)
    && (s.currentTerminal ==> s.currentTicket != 0)
    && CallsShape(s.calls)
    && FrameShape(s.frame)
  }

  /** Whatever the current load waits for is running or already posted. */
  ghost predicate WorkerShape(s: State) {
    && (InWindow(s) ==> s.worker.None?)
    && (!InWindow(s) ==>
          && (s.worker.Some? && s.worker.value.LoadWorker? ==>
                s.ctx.Some? && s.worker.value.generation == s.loadGeneration)
          && (s.worker.Some? && s.worker.value.EntryWorker? ==>
                s.frame.EntryFrame? && s.worker.value == EntryWorker(s.loadGeneration, s.frame.index))
          && (s.ctx.Some? ==> s.worker.Some? || LoadPosted(s.events, s.loadGeneration))
          && (s.frame.EntryFrame? ==> s.worker.Some? || EntryPosted(s.events, s.loadGeneration, s.frame.index)))
  }

  ghost predicate LoadPosted(events: seq<Event>, generation: nat) {
    WorkerFinished(generation, true) in events || WorkerFinished(generation, false) in events
  }

  ghost predicate EntryPosted(events: seq<Event>, generation: nat, index: nat) {
    EntryFinished(generation, index, true) in events || EntryFinished(generation, index, false) in events
  }

  ghost predicate Scheduled(s: State) {
    && (!s.active && s.queue != [] && !InWindow(s) ==> StartNextEvent in s.events)
    && Deliveries(s.events) >= |s.pending|
    && (InWindow(s) ==> s.calls[|s.calls| - 1].collected == Unresolved(s))
  }

  ghost function Deliveries(events: seq<Event>): nat {
    multiset(events)[DeliverEvent]
  }

  ghost predicate Control(s: State) {
    Flags(s) && WorkerShape(s) && Scheduled(s)
  }

  ghost predicate Inv(s: State) {
    LedgerInv(s) && Control(s)
  }

  /** A state inside a prologue: the current load runs and waits for nothing yet. */
  ghost predicate Running(s: State) {
    && CallsShape(s.calls) && !InWindow(s) && !s.shuttingDown
    && s.active && !s.currentTerminal && s.frame == NoFrame && s.ctx.None? && s.worker.None?
    && 1 <= s.currentTicket && 1 <= s.loadGeneration == s.nextGeneration
    && Deliveries(s.events) >= |s.pending|
  }

  /** A state with no current load, whose queue may still have to be picked up. */
  ghost predicate Idle(s: State) {
    && CallsShape(s.calls) && !InWindow(s) && !s.shuttingDown
    && !s.active && s.frame == NoFrame && s.ctx.None? && s.worker.None?
    && s.loadGeneration <= s.nextGeneration
    && (s.currentTerminal ==> s.currentTicket != 0)
    && Deliveries(s.events) >= |s.pending|
  }

  /** Two states with the same tickets in the same places. */
  ghost predicate SameLedger(a: State, b: State) {
    && a.queue == b.queue && a.pending == b.pending && a.delivered == b.delivered && a.nextTicket == b.nextTicket
    && a.active == b.active && a.currentTerminal == b.currentTerminal && a.currentTicket == b.currentTicket
  }

  // ---------- The ledger through one prologue ----------

  lemma EndPrologueLedger(s: State, outcome: Outcome, produced: seq<nat>)
    requires LedgerInv(s) && s.active && !s.currentTerminal && !s.shuttingDown
    ensures LedgerInv(EndPrologue(s, outcome, produced))
  {
    var e := EndPrologue(s, outcome, produced);
    forall t: nat ensures Places(e, t) == Places(s, t) {
      ResolvedPush(s.pending, CurrentTerminal(s, outcome, produced), t);
    }
    assert Places(e, s.currentTicket) == Places(s, s.currentTicket);
  }

  lemma EndPrologueControl(s: State, outcome: Outcome, produced: seq<nat>)
    requires Running(s)
    ensures Control(EndPrologue(s, outcome, produced))
  {
    var e := EndPrologue(s, outcome, produced);
    assert e.events == s.events + [DeliverEvent] + [StartNextEvent];
    assert e.events[|e.events| - 1] == StartNextEvent;
  }

  lemma SameLedgerKeeps(a: State, b: State)
    requires LedgerInv(a) && SameLedger(a, b)
    ensures LedgerInv(b)
  {
    assert forall t: nat :: Places(b, t) == Places(a, t);
  }

  lemma EndPrologueKeeps(s: State, outcome: Outcome, produced: seq<nat>)
    requires LedgerInv(s) && Running(s)
    ensures Inv(EndPrologue(s, outcome, produced))
  {
    EndPrologueLedger(s, outcome, produced);
    EndPrologueControl(s, outcome, produced);
  }

  lemma FanOutEpilogueKeeps(s: State, kept: seq<nat>, failures: nat, wholeStop: CancelMode)
    requires LedgerInv(s) && Running(s)
    ensures Inv(FanOutEpilogue(s, kept, failures, wholeStop))
  {
    var c := s.(cancelMode := NoCancel);
    SameLedgerKeeps(s, c);
    assert Running(c);
    forall o: Outcome, p: seq<nat> ensures Inv(EndPrologue(c, o, p)) {
      EndPrologueKeeps(c, o, p);
    }
  }

  lemma StartEntryControl(s: State, entries: seq<EntryStart>, index: nat, kept: seq<nat>, failures: nat)
    requires Running(s) && index < |entries| && entries[index].Started?
    ensures Control(s.(frame := EntryFrame(entries, index, kept, failures, NoCancel),
                       worker := Some(EntryWorker(s.loadGeneration, index))))
  {
  }

  lemma {:induction false} RunEntriesKeeps(s: State, entries: seq<EntryStart>, index: nat, kept: seq<nat>, failures: nat)
    requires LedgerInv(s) && Running(s) && index <= |entries|
    ensures Inv(RunEntries(s, entries, index, kept, failures))
    decreases |entries| - index
  {
    if index == |entries| {
      FanOutEpilogueKeeps(s, kept, failures, NoCancel);
    } else if entries[index].RefusedBeforeStart? {
      RunEntriesKeeps(s, entries, index + 1, kept, failures + 1);
    } else {
      StartEntryControl(s, entries, index, kept, failures);
      SameLedgerKeeps(s, RunEntries(s, entries, index, kept, failures));
    }
  }

  lemma StartImportControl(s: State, dataset: nat, replacing: bool)
    requires Running(s)
    ensures Control(s.(ctx := Some(Context(s.currentTicket, dataset, replacing)),
                       worker := Some(LoadWorker(s.loadGeneration))))
  {
  }

  lemma PastDialogKeeps(s: State, plan: Plan)
    requires LedgerInv(s) && Running(s)
    ensures Inv(PastDialog(s, plan))
  {
    if s.cancelMode != NoCancel {
      var c := s.(cancelMode := NoCancel);
      SameLedgerKeeps(s, c);
      assert Running(c);
      EndPrologueKeeps(c, Cancelled, []);
    } else {
      match plan
      case RefusedExpansion => EndPrologueKeeps(s, Failed, []);
      case SingleInstance(dataset, replacing) =>
        StartImportControl(s, dataset, replacing);
        SameLedgerKeeps(s, PastDialog(s, plan));
      case FanOut(entries) => RunEntriesKeeps(s, entries, 0, [], 0);
    }
  }

  lemma BeginLoadKeeps(s: State, script: Prologue)
    requires LedgerInv(s) && Running(s)
    ensures Inv(BeginLoad(s, script))
  {
    match script
    case PrologueFailed => EndPrologueKeeps(s, Failed, []);
    case PrologueReused(dataset) => EndPrologueKeeps(s, Loaded, [dataset]);
    case PrologueAtDialog =>
      SameLedgerKeeps(s, BeginLoad(s, script));
      assert Control(BeginLoad(s, script));
    case PrologueReady(plan) => PastDialogKeeps(s, plan);
  }

  lemma QueuedIsElsewhere(s: State, i: nat)
    requires LedgerInv(s) && i < |s.queue|
    ensures 1 <= s.queue[i].ticket <= s.nextTicket
    ensures s.queue[i].ticket != s.currentTicket
  {
    var t := s.queue[i].ticket;
    WaitingRemove(s.queue, i, t);
    assert Places(s, t) >= 1;
  }

  lemma DequeueLedger(s: State)
    requires LedgerInv(s) && !s.active && s.queue != []
    ensures LedgerInv(Dequeue(s)) && 1 <= Dequeue(s).currentTicket
  {
    QueuedIsElsewhere(s, 0);
    assert forall t: nat :: Places(Dequeue(s), t) == Places(s, t);
  }

  lemma ForgetLedger(s: State, g: nat)
    requires LedgerInv(s) && !s.active
    ensures LedgerInv(s.(loadGeneration := g, currentTicket := 0, currentIdentity := "", currentTerminal := false))
  {
    var n := s.(loadGeneration := g, currentTicket := 0, currentIdentity := "", currentTerminal := false);
    assert forall t: nat :: Places(n, t) == Places(s, t);
  }

  lemma StartNextKeeps(s: State, script: Prologue)
    requires LedgerInv(s) && Idle(s)
    ensures Inv(StartNext(s, script))
  {
    if s.queue == [] {
      ForgetLedger(s, 0);
      assert Control(StartNext(s, script));
    } else {
      DequeueLedger(s);
      assert Running(Dequeue(s));
      BeginLoadKeeps(Dequeue(s), script);
    }
  }

  // ---------- One lemma per step ----------

  lemma EnqueueLedger(s: State, identity: string)
    requires LedgerInv(s)
    ensures LedgerInv(Enqueue(s, identity))
  {
    var n := Enqueue(s, identity);
    forall t: nat ensures Places(n, t) == Places(s, t) + if t == n.nextTicket then 1 else 0 {
      WaitingPush(s.queue, Request(n.nextTicket, identity), t);
    }
  }

  lemma EnqueueControl(s: State, identity: string)
    requires Control(s) && !InWindow(s)
    ensures if s.active then Control(Enqueue(s, identity)) else Idle(Enqueue(s, identity))
  {
  }

  lemma PickUpKeeps(n: State, script: Prologue)
    requires LedgerInv(n) && if n.active then Control(n) else Idle(n)
    ensures Inv(StartNext(n, script))
  {
    if !n.active {
      StartNextKeeps(n, script);
    }
  }

  lemma LoadKeeps(s: State, usable: bool, identity: string, script: Prologue)
    requires Inv(s) && (InWindow(s) ==> !Accepts(s, usable))
    ensures Inv(LoadFileTicketed(s, usable, identity, script))
  {
    if Accepts(s, usable) {
      EnqueueLedger(s, identity);
      EnqueueControl(s, identity);
      PickUpKeeps(Enqueue(s, identity), script);
    }
  }

  lemma CancelQueuedLedger(s: State, i: nat)
    requires LedgerInv(s) && i < |s.queue|
    ensures LedgerInv(CancelQueued(s, i)) && s.queue[i].ticket != s.currentTicket
  {
    var r := s.queue[i];
    var e := CancelQueued(s, i);
    QueuedIsElsewhere(s, i);
    forall t: nat
      ensures Places(e, t) == Places(s, t)
      ensures t != r.ticket ==> Resolved(e.pending, t) == Resolved(s.pending, t)
    {
      ResolvedPush(s.pending, Terminal(r.ticket, Cancelled, r.identity, 0, []), t);
      WaitingRemove(s.queue, i, t);
    }
  }

  lemma CancelQueuedControl(s: State, i: nat)
    requires Control(s) && !InWindow(s) && i < |s.queue| && s.queue[i].ticket != s.currentTicket
    ensures Control(CancelQueued(s, i))
  {
    var e := CancelQueued(s, i);
    assert e.events == s.events + [DeliverEvent];
    assert Flags(e);
    assert WorkerShape(e);
  }

  lemma LatchControl(s: State, mode: CancelMode, stopped: set<nat>)
    requires Control(s) && mode != NoCancel
    ensures Control(s.(cancelMode := mode, stopped := stopped))
  {
  }

  lemma CancelCurrentKeeps(s: State, keep: bool)
    requires Inv(s)
    ensures Inv(CancelCurrent(s, keep))
  {
    LatchControl(s, if keep then Keep else Discard, s.stopped + {s.currentTicket});
    SameLedgerKeeps(s, CancelCurrent(s, keep));
  }

  lemma CancelLoadKeeps(s: State, ticket: nat, keep: bool)
    requires Inv(s) && (InWindow(s) ==> ticket == 0 || !Queued(s, ticket))
    ensures Inv(CancelLoad(s, ticket, keep).0)
  {
    if ticket != 0 && Queued(s, ticket) {
      CancelQueuedLedger(s, FindTicket(s.queue, ticket));
      CancelQueuedControl(s, FindTicket(s.queue, ticket));
    } else {
      CancelCurrentKeeps(s, keep);
    }
  }

  lemma AnswerDialogKeeps(s: State, answer: DialogAnswer)
    requires Inv(s) && s.frame.DialogFrame? && s.calls == []
    ensures Inv(AnswerDialog(s, answer))
  {
    var n := s.(frame := NoFrame);
    SameLedgerKeeps(s, n);
    assert Running(n);
    match answer
    case ContractViolation => EndPrologueKeeps(n, Failed, []);
    case ConfigRefused => EndPrologueKeeps(n, Failed, []);
    case Rejected =>
      var m := n.(stopped := n.stopped + {n.currentTicket});
      SameLedgerKeeps(n, m);
      assert Running(m);
      EndPrologueKeeps(m, Cancelled, []);
    case Accepted(plan) => PastDialogKeeps(n, plan);
  }

  lemma PostControl(s: State, e: Event)
    requires Control(s)
    ensures Control(Post(s, e)) && e in Post(s, e).events
  {
    assert Post(s, e).events[|s.events|] == e;
  }

  lemma FinishWorkerKeeps(s: State, startOk: bool)
    requires Inv(s)
    ensures Inv(FinishWorker(s, startOk))
  {
    if s.worker.Some? {
      var e := match s.worker.value
        case LoadWorker(g) => WorkerFinished(g, startOk)
        case EntryWorker(g, i) => EntryFinished(g, i, startOk);
      PostControl(s, e);
      SameLedgerKeeps(s, FinishWorker(s, startOk));
      assert FinishWorker(s, startOk) == Post(s, e).(worker := None);
      WorkerPosted(Post(s, e), e);
    }
  }

  lemma WorkerPosted(p: State, e: Event)
    requires Control(p) && p.worker.Some? && e in p.events
    requires match p.worker.value
      case LoadWorker(g) => e == WorkerFinished(g, true) || e == WorkerFinished(g, false)
      case EntryWorker(g, i) => e == EntryFinished(g, i, true) || e == EntryFinished(g, i, false)
    ensures Control(p.(worker := None))
  {
  }

  lemma DeliverLedger(s: State)
    requires LedgerInv(s) && s.pending != []
    ensures LedgerInv(DeliverPending(s))
  {
    var r := DeliverPending(s);
    forall t: nat
      ensures Resolved(r.pending, t) + Resolved(r.delivered, t) == Resolved(s.pending, t) + Resolved(s.delivered, t)
      ensures Places(r, t) == Places(s, t)
    {
      ResolvedPush(s.delivered, s.pending[0], t);
    }
  }

  lemma FinishLoadLedger(s: State, x: Terminal)
    requires LedgerInv(s) && s.active && !s.currentTerminal && x.ticket == s.currentTicket
    ensures LedgerInv(EmitLoadFinished(s, x))
  {
    var e := EmitLoadFinished(s, x);
    forall t: nat ensures Places(e, t) == Places(s, t) {
      ResolvedPush(s.pending, x, t);
    }
    assert Places(e, s.currentTicket) == Places(s, s.currentTicket);
  }

  /** Control without the facts about the head event, which is being dispatched. */
  ghost predicate Popped(s: State, head: Event) {
    && Flags(s)
    && s.calls == []
    && (s.worker.Some? && s.worker.value.LoadWorker? ==>
          s.ctx.Some? && s.worker.value.generation == s.loadGeneration)
    && (s.worker.Some? && s.worker.value.EntryWorker? ==>
          s.frame.EntryFrame? && s.worker.value == EntryWorker(s.loadGeneration, s.frame.index))
    && (s.ctx.Some? ==>
          s.worker.Some? || LoadPosted(s.events, s.loadGeneration)
          || (head.WorkerFinished? && head.generation == s.loadGeneration))
    && (s.frame.EntryFrame? ==>
          s.worker.Some? || EntryPosted(s.events, s.loadGeneration, s.frame.index)
          || (head.EntryFinished? && head.generation == s.loadGeneration && head.index == s.frame.index))
    && (!s.active && s.queue != [] ==> StartNextEvent in s.events || head == StartNextEvent)
    && Deliveries(s.events) + (if head == DeliverEvent then 1 else 0) >= |s.pending|
  }

  lemma PopControl(s: State)
    requires Control(s) && s.calls == [] && s.events != []
    ensures Popped(s.(events := s.events[1..]), s.events[0])
  {
    assert s.events == [s.events[0]] + s.events[1..];
  }

  lemma OnWorkerFinishedLedger(n: State, g: nat, ok: bool, replayOk: bool)
    requires LedgerInv(n) && Flags(n)
    ensures LedgerInv(OnWorkerFinished(n, g, ok, replayOk))
  {
    if g == n.loadGeneration && n.ctx.Some? {
      var r := OnWorkerFinished(n, g, ok, replayOk);
      var t := r.pending[|r.pending| - 1];
      var w := n.(worker := None);
      SameLedgerKeeps(n, w);
      FinishLoadLedger(w, t);
      assert r == EmitLoadFinished(w, t).(ctx := None, calls := n.calls + [FinishTail]);
      SameLedgerKeeps(EmitLoadFinished(w, t), r);
    }
  }

  lemma OnWorkerFinishedControl(n: State, g: nat, ok: bool, replayOk: bool)
    requires Popped(n, WorkerFinished(g, ok))
    ensures Control(OnWorkerFinished(n, g, ok, replayOk))
  {
    if g == n.loadGeneration && n.ctx.Some? {
      var r := OnWorkerFinished(n, g, ok, replayOk);
      assert r.events == n.events + [DeliverEvent];
      assert r.calls == [FinishTail];
    }
  }

  lemma ContinueEntriesKeeps(n: State, entries: seq<EntryStart>, index: nat, kept: seq<nat>, failures: nat)
    requires LedgerInv(n) && Running(n) && index <= |entries|
    ensures Inv(ContinueEntries(n, entries, index, kept, failures))
  {
    if n.cancelMode != NoCancel {
      FanOutEpilogueKeeps(n, kept, failures, n.cancelMode);
    } else {
      RunEntriesKeeps(n, entries, index, kept, failures);
    }
  }

  lemma ResumeEntryKeeps(s: State, ok: bool)
    requires LedgerInv(s) && s.calls == [] && Flags(s) && s.frame.EntryFrame? && Deliveries(s.events) >= |s.pending|
    ensures Inv(ResumeEntry(s, ok))
  {
    var n := s.(frame := NoFrame, worker := None);
    SameLedgerKeeps(s, n);
    ContinueEntriesKeeps(n, s.frame.entries, s.frame.index + 1, KeptAfter(s, ok), FailuresAfter(s, ok));
  }

  lemma DispatchKeeps(s: State, script: Prologue, replayOk: bool)
    requires Inv(s) && s.calls == [] && s.events != []
    ensures Inv(Dispatch(s, script, replayOk))
  {
    var n := s.(events := s.events[1..]);
    PopControl(s);
    SameLedgerKeeps(s, n);
    match s.events[0]
    case StartNextEvent => PickUpKeeps(n, script);
    case DeliverEvent => DispatchDeliver(n);
    case WorkerFinished(g, ok) =>
      OnWorkerFinishedLedger(n, g, ok, replayOk);
      OnWorkerFinishedControl(n, g, ok, replayOk);
    case EntryFinished(g, i, ok) =>
      if Awaits(n, g, i) {
        ResumeEntryKeeps(n, ok);
      }
    case CancelEvent(t, keep) => CancelLoadKeeps(n, t, keep);
  }

  lemma DispatchDeliver(n: State)
    requires LedgerInv(n) && Popped(n, DeliverEvent)
    ensures Inv(DeliverPending(n))
  {
    if n.pending != [] {
      DeliverLedger(n);
    }
  }

  lemma StopRowKeeps(s: State, generation: nat, index: nat, keep: bool)
    requires Inv(s)
    ensures Inv(StopRow(s, generation, index, keep))
  {
    var r := StopRow(s, generation, index, keep);
    SameLedgerKeeps(s, r);
    StopRowControl(s, generation, index, keep);
  }

  lemma StopRowControl(s: State, generation: nat, index: nat, keep: bool)
    requires Control(s)
    ensures Control(StopRow(s, generation, index, keep))
  {
  }

  lemma PostKeeps(s: State, e: Event)
    requires Inv(s)
    ensures Inv(Post(s, e))
  {
    PostControl(s, e);
    SameLedgerKeeps(s, Post(s, e));
  }

  // ---------- Shutdown ----------

  lemma BeginShutdownKeeps(s: State, startOk: bool)
    requires Inv(s) && !InWindow(s)
    ensures Inv(BeginShutdown(s, startOk))
  {
    var r := BeginShutdown(s, startOk);
    SameLedgerKeeps(s, r);
    BeginShutdownControl(s, startOk);
  }

  lemma BeginShutdownControl(s: State, startOk: bool)
    requires Control(s) && !InWindow(s)
    ensures Control(BeginShutdown(s, startOk))
  {
    var r := BeginShutdown(s, startOk);
    assert r.calls == s.calls + [ShutdownTail(Unresolved(s))];
    assert Unresolved(r) == Unresolved(s);
    assert Deliveries(r.events) == Deliveries(s.events);
  }

  lemma {:induction false} CancelAllForm(s: State, collected: seq<Request>, t: nat)
    requires s.currentTicket == 0 && !s.currentTerminal
    requires forall i :: 0 <= i < |collected| ==> 1 <= collected[i].ticket
    ensures var e := CancelAll(s, collected);
      && e == s.(pending := e.pending, events := e.events)
      && Resolved(e.pending, t) == Resolved(s.pending, t) + Waiting(collected, t)
      && |e.pending| == |s.pending| + |collected|
      && Deliveries(e.events) == Deliveries(s.events) + |collected|
    decreases |collected|
  {
    if collected != [] {
      var r := collected[0];
      var x := Terminal(r.ticket, Cancelled, r.identity, 0, []);
      var e := EmitLoadFinished(s, x);
      ResolvedPush(s.pending, x, t);
      assert e == s.(pending := s.pending + [x], events := s.events + [DeliverEvent]);
      CancelAllForm(e, collected[1..], t);
    }
  }

  lemma UnresolvedWaiting(s: State, t: nat)
    ensures Waiting(Unresolved(s), t) == Current(s, t) + Waiting(s.queue, t)
  {
    if s.active && !s.currentTerminal {
      assert Unresolved(s)[1..] == s.queue;
    } else {
      assert Unresolved(s) == s.queue;
    }
  }

  lemma UnresolvedPositive(s: State)
    requires LedgerInv(s) && Flags(s)
    ensures forall i :: 0 <= i < |Unresolved(s)| ==> 1 <= Unresolved(s)[i].ticket
  {
    var u := Unresolved(s);
    forall i | 0 <= i < |u| ensures 1 <= u[i].ticket {
      if |u| == |s.queue| {
        assert u == s.queue;
        QueuedIsElsewhere(s, i);
      } else if i > 0 {
        assert u[i] == s.queue[i - 1];
        QueuedIsElsewhere(s, i - 1);
      }
    }
  }

  lemma EndShutdownKeeps(s: State)
    requires Inv(s) && InWindow(s)
    ensures Inv(EndShutdown(s))
    ensures EndShutdown(s).queue == [] && !EndShutdown(s).active && !Live(EndShutdown(s))
  {
    UnresolvedPositive(s);
    CancelAllForm(Reset(s), Unresolved(s), 0);
    EndShutdownControl(s, CancelAll(Reset(s), Unresolved(s)));
    EndShutdownLedger(s);
  }

  lemma EndShutdownLedger(s: State)
    requires LedgerInv(s) && Flags(s) && InWindow(s) && s.calls[|s.calls| - 1].collected == Unresolved(s)
    ensures LedgerInv(EndShutdown(s))
  {
    UnresolvedPositive(s);
    var n := EndShutdown(s);
    forall t: nat ensures Places(n, t) == Places(s, t) {
      UnresolvedWaiting(s, t);
      CancelAllForm(Reset(s), Unresolved(s), t);
    }
    CancelAllForm(Reset(s), Unresolved(s), 0);
  }

  lemma EndShutdownControl(s: State, e: State)
    requires Control(s) && InWindow(s)
    requires EndShutdown(s) == e.(calls := e.calls + [FlushLoop])
    requires e.calls == s.calls[..|s.calls| - 1]
    requires e.frame == NoFrame && e.ctx.None? && e.queue == [] && !e.active && e.currentTicket == 0
    requires !e.currentTerminal && !e.shuttingDown && e.worker.None?
    requires e.loadGeneration == s.loadGeneration && e.nextGeneration == s.nextGeneration
    requires Deliveries(e.events) >= |e.pending|
    ensures Control(EndShutdown(s))
  {
    var n := EndShutdown(s);
    assert CallsShape(n.calls);
  }

  lemma PopControlCall(s: State)
    requires Control(s) && s.calls != [] && !InWindow(s) && !(s.active && s.currentTerminal && |s.calls| == 1)
    ensures Control(PopCall(s))
  {
    var n := PopCall(s);
    assert forall i :: 0 <= i < |n.calls| ==> n.calls[i] == s.calls[i];
  }

  lemma FlushKeeps(s: State)
    requires Inv(s) && OnTop(s, FlushLoop)
    ensures Inv(FlushStep(s))
  {
    if s.pending == [] {
      SameLedgerKeeps(s, PopCall(s));
      PopControlCall(s);
    } else {
      DeliverLedger(s);
      assert Control(DeliverPending(s));
    }
  }

  lemma EndWorkerLedger(s: State)
    requires LedgerInv(s) && s.calls != [] && !(s.active && !s.currentTerminal)
    ensures LedgerInv(PopCall(s).(cancelMode := NoCancel, active := false))
  {
    var n := PopCall(s).(cancelMode := NoCancel, active := false);
    assert forall t: nat :: Places(n, t) == Places(s, t);
  }

  lemma EndWorkerKeeps(s: State, script: Prologue)
    requires Inv(s) && OnTop(s, FinishTail) && !(s.active && !s.currentTerminal)
    ensures Inv(EndWorker(s, script))
  {
    var n := PopCall(s).(cancelMode := NoCancel, active := false);
    EndWorkerLedger(s);
    assert Idle(n);
    StartNextKeeps(n, script);
  }

  // ---------- Every run ----------

  predicate OnLoop(op: Op) {
    op.OpAnswerDialog? || op.OpWorkerDone? || op.OpDispatch? || op.OpFinishTail? || op.OpShutdownTail? || op.OpFlush?
  }

  lemma LoopStepKeeps(s: State, op: Op)
    requires Inv(s) && Legal(s, op) && OnLoop(op)
    ensures Inv(Step(s, op))
  {
    match op
    case OpAnswerDialog(answer) => AnswerDialogKeeps(s, answer);
    case OpWorkerDone(ok) => FinishWorkerKeeps(s, ok);
    case OpDispatch(script, replayOk) => DispatchKeeps(s, script, replayOk);
    case OpFinishTail(script) => EndWorkerKeeps(s, script);
    case OpShutdownTail => EndShutdownKeeps(s);
    case OpFlush => FlushKeeps(s);
  }

  lemma CallStepKeeps(s: State, op: Op)
    requires Inv(s) && Legal(s, op) && !OnLoop(op)
    ensures Inv(Step(s, op))
  {
    match op
    case OpLoad(usable, identity, script) => LoadKeeps(s, usable, identity, script);
    case OpCancelLoad(t, keep) => CancelLoadKeeps(s, t, keep);
    case OpCancelLoadAsync(t, keep) => PostKeeps(s, CancelEvent(t, keep));
    case OpCancelCurrent(keep) => CancelCurrentKeeps(s, keep);
    case OpCancelGeneration(g, keep) => CancelCurrentKeeps(s, keep);
    case OpStopRow(g, i, keep) => StopRowKeeps(s, g, i, keep);
    case OpShutdown(ok) => BeginShutdownKeeps(s, ok);
    case OpDestroy(ok) => DestroyKeeps(s, ok);
  }

  /** Every legal step keeps the invariant. */
  lemma StepKeeps(s: State, op: Op)
    requires Inv(s) && Legal(s, op)
    ensures Inv(Step(s, op))
  {
    if OnLoop(op) {
      LoopStepKeeps(s, op);
    } else {
      CallStepKeeps(s, op);
    }
  }

  lemma DestroyKeeps(s: State, startOk: bool)
    requires Inv(s) && !InWindow(s)
    ensures Inv(BeginShutdown(s.(destroying := true), startOk))
  {
    var d := s.(destroying := true);
    SameLedgerKeeps(s, d);
    assert Control(d);
    BeginShutdownKeeps(d, startOk);
  }

  lemma {:induction false} RunKeeps(s: State, ops: seq<Op>)
    requires Inv(s) && LegalRun(s, ops)
    ensures Inv(Run(s, ops))
    decreases |ops|
  {
    if ops != [] {
      StepKeeps(s, ops[0]);
      RunKeeps(Step(s, ops[0]), ops[1..]);
    }
  }

  lemma Extend(s: State, op: Op, rest: seq<Op>)
    requires Legal(s, op) && LegalRun(Step(s, op), rest)
    ensures LegalRun(s, [op] + rest)
    ensures Run(s, [op] + rest) == Run(Step(s, op), rest)
  {
    assert ([op] + rest)[1..] == rest;
  }
}
