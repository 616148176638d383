/**
 The ticketed load queue of the file loader as a state machine over its GUI-thread steps.

 Every accepted request gets a ticket. A request waits in `queue`, becomes the current load, and ends
 with one terminal, which is first scheduled (`pending`) and later delivered (`delivered`). Posted
 Qt calls are the FIFO `events`. Calls that run observer slots before they are done leave a
 continuation on `calls`, so a slot that re-enters the loader is an ordinary step of the machine.
 */
module LoadTickets {
  import opened Basics

  datatype Outcome = Loaded | Failed | Cancelled
  datatype CancelMode = NoCancel | Keep | Discard

  datatype Request = Request(ticket: nat, identity: string)
  datatype Terminal = Terminal(ticket: nat, outcome: Outcome, identity: string, dataset: nat, produced: seq<nat>)

  /** What one fan-out entry does before its import starts. */
  datatype EntryStart = RefusedBeforeStart | Started(dataset: nat)

  /** How the accepted configuration expands once the dialog (if any) is behind the prologue. */
  datatype Plan =
    | SingleInstance(dataset: nat, replacing: bool)
    | FanOut(entries: seq<EntryStart>)
    | RefusedExpansion

  /** The nondeterministic outcome of a prologue up to its first suspension point. */
  datatype Prologue =
    | PrologueFailed
    | PrologueReused(dataset: nat)
    | PrologueAtDialog
    | PrologueReady(plan: Plan)

  datatype DialogAnswer = ContractViolation | Rejected | ConfigRefused | Accepted(plan: Plan)

  /** The suspended coroutine frame of the current load. */
  datatype Frame =
    | NoFrame
    | DialogFrame
    | EntryFrame(entries: seq<EntryStart>, index: nat, kept: seq<nat>, failures: nat, rowStop: CancelMode)

  datatype Context = Context(ticket: nat, dataset: nat, replacing: bool)
  datatype Worker = LoadWorker(generation: nat) | EntryWorker(generation: nat, index: nat)

  datatype Event =
    | StartNextEvent
    | DeliverEvent
    | WorkerFinished(generation: nat, startOk: bool)
    | EntryFinished(generation: nat, index: nat, startOk: bool)
    | CancelEvent(ticket: nat, keep: bool)

  /** A call that ran observer slots and still has work to do. */
  datatype Call = FinishTail | ShutdownTail(collected: seq<Request>) | FlushLoop

  datatype State = State(
    queue: seq<Request>,
    pending: seq<Terminal>,
    delivered: seq<Terminal>,
    currentTicket: nat,
    currentIdentity: string,
    currentTerminal: bool,
    active: bool,
    cancelMode: CancelMode,
    loadGeneration: nat,
    nextGeneration: nat,
    nextTicket: nat,
    shuttingDown: bool,
    destroying: bool,
    frame: Frame,
    ctx: Option<Context>,
    worker: Option<Worker>,
    events: seq<Event>,
    calls: seq<Call>,
    stopped: set<nat>)  // history: tickets somebody asked to stop

  const INITIAL := State([], [], [], 0, "", false, false, NoCancel, 0, 0, 0, false, false, NoFrame, None, None, [], [], {})

  // ---------- The loader's own functions ----------

  function Post(s: State, e: Event): State {
    s.(events := s.events + [e])
  }

  /** The single terminalize point: the first resolution of the current request wins. */
  function EmitLoadFinished(s: State, t: Terminal): State {
    if t.ticket == s.currentTicket && s.currentTerminal then s
    else
      Post(s.(currentTerminal := s.currentTerminal || t.ticket == s.currentTicket,
              pending := s.pending + [t]), DeliverEvent)
  }

  function FinishPrologue(s: State): State {
    if s.shuttingDown then s else Post(s.(active := false), StartNextEvent)
  }

  function CurrentTerminal(s: State, outcome: Outcome, produced: seq<nat>): Terminal {
    Terminal(s.currentTicket, outcome, s.currentIdentity, if produced == [] then 0 else produced[0], produced)
  }

  /** A prologue exit that resolves the request: schedule its terminal, then hand the queue on. */
  function EndPrologue(s: State, outcome: Outcome, produced: seq<nat>): State {
    FinishPrologue(EmitLoadFinished(s, CurrentTerminal(s, outcome, produced)))
  }

  /** A fan-out that keeps nothing is Cancelled when nothing failed, and a whole-load stop is always Cancelled. */
  function FanOutOutcome(keptAny: bool, failures: nat, wholeStop: CancelMode): Outcome {
    if !keptAny then (if wholeStop == Discard || failures == 0 then Cancelled else Failed)
    else if wholeStop != NoCancel then Cancelled else Loaded
  }

  function FanOutEpilogue(s: State, kept: seq<nat>, failures: nat, wholeStop: CancelMode): State {
    var survivors := if wholeStop == Discard then [] else kept;
    EndPrologue(s.(cancelMode := NoCancel), FanOutOutcome(survivors != [], failures, wholeStop), survivors)
  }

  /** Runs the fan-out loop from `index` to the next entry whose import starts, or to the epilogue. */
  function RunEntries(s: State, entries: seq<EntryStart>, index: nat, kept: seq<nat>, failures: nat): State
    requires index <= |entries|
    decreases |entries| - index
  {
    if index == |entries| then FanOutEpilogue(s, kept, failures, NoCancel)
    else if entries[index].RefusedBeforeStart? then RunEntries(s, entries, index + 1, kept, failures + 1)
    else
      s.(frame := EntryFrame(entries, index, kept, failures, NoCancel),
         worker := Some(EntryWorker(s.loadGeneration, index)))
  }

  /** The stop that applies to the frame's entry: the whole-load scope wins over the row's own. */
  function EntryAction(s: State): CancelMode
    requires s.frame.EntryFrame?
  {
    if s.cancelMode != NoCancel then s.cancelMode else s.frame.rowStop
  }

  function KeptAfter(s: State, startOk: bool): seq<nat>
    requires s.frame.EntryFrame? && s.frame.index < |s.frame.entries| && s.frame.entries[s.frame.index].Started?
  {
    var action := EntryAction(s);
    if action == Keep || (action == NoCancel && startOk) then s.frame.kept + [s.frame.entries[s.frame.index].dataset]
    else s.frame.kept
  }

  function FailuresAfter(s: State, startOk: bool): nat
    requires s.frame.EntryFrame?
  {
    if EntryAction(s) == NoCancel && !startOk then s.frame.failures + 1 else s.frame.failures
  }

  /** After an entry: a whole-load stop ends the fan-out, otherwise the next entry runs. */
  function ContinueEntries(s: State, entries: seq<EntryStart>, index: nat, kept: seq<nat>, failures: nat): State
    requires index <= |entries|
  {
    if s.cancelMode != NoCancel then FanOutEpilogue(s, kept, failures, s.cancelMode)
    else RunEntries(s, entries, index, kept, failures)
  }

  /** The fan-out continuation after the import of the frame's entry returned. */
  function ResumeEntry(s: State, startOk: bool): State
    requires s.frame.EntryFrame? && s.frame.index < |s.frame.entries| && s.frame.entries[s.frame.index].Started?
  {
    ContinueEntries(s.(frame := NoFrame, worker := None), s.frame.entries, s.frame.index + 1,
                    KeptAfter(s, startOk), FailuresAfter(s, startOk))
  }

  /** The prologue past the dialog: a latched cancel ends it, otherwise the import starts. */
  function PastDialog(s: State, plan: Plan): State {
    if s.cancelMode != NoCancel then EndPrologue(s.(cancelMode := NoCancel), Cancelled, [])
    else
      match plan
      case RefusedExpansion => EndPrologue(s, Failed, [])
      case SingleInstance(dataset, replacing) =>
        s.(ctx := Some(Context(s.currentTicket, dataset, replacing)),
           worker := Some(LoadWorker(s.loadGeneration)))
      case FanOut(entries) => RunEntries(s, entries, 0, [], 0)
  }

  function BeginLoad(s: State, script: Prologue): State {
    match script
    case PrologueFailed => EndPrologue(s, Failed, [])
    case PrologueReused(dataset) => EndPrologue(s, Loaded, [dataset])
    case PrologueAtDialog => s.(frame := DialogFrame)
    case PrologueReady(plan) => PastDialog(s, plan)
  }

  /** Destroying a suspended frame runs its scope guard, which finishes the prologue. */
  function DropFrame(s: State): State {
    if s.frame.NoFrame? then s else FinishPrologue(s.(frame := NoFrame))
  }

  function Dequeue(s: State): State
    requires s.queue != []
  {
    var r := s.queue[0];
    s.(queue := s.queue[1..], active := true, nextGeneration := s.nextGeneration + 1,
       loadGeneration := s.nextGeneration + 1, currentTicket := r.ticket, currentIdentity := r.identity,
       currentTerminal := false)
  }

  function StartNext(s: State, script: Prologue): State {
    if s.active then s
    else
      var d := DropFrame(s);
      if d.queue == [] then
        d.(loadGeneration := 0, currentTicket := 0, currentIdentity := "", currentTerminal := false)
      else BeginLoad(Dequeue(d), script)
  }

  predicate Accepts(s: State, usable: bool) {
    usable && !s.destroying
  }

  /** Mints the next ticket and queues its request. */
  function Enqueue(s: State, identity: string): State {
    s.(nextTicket := s.nextTicket + 1, queue := s.queue + [Request(s.nextTicket + 1, identity)])
  }

  function LoadFileTicketed(s: State, usable: bool, identity: string, script: Prologue): State {
    if Accepts(s, usable) then StartNext(Enqueue(s, identity), script) else s
  }

  function AnswerDialog(s: State, answer: DialogAnswer): State
    requires s.frame.DialogFrame?
  {
    var n := s.(frame := NoFrame);
    match answer
    case ContractViolation => EndPrologue(n, Failed, [])
    case ConfigRefused => EndPrologue(n, Failed, [])
    case Rejected => EndPrologue(n.(stopped := n.stopped + {n.currentTicket}), Cancelled, [])
    case Accepted(plan) => PastDialog(n, plan)
  }

  /** Whether a worker load keeps its rows: not discarded, started or kept on request, and replayed when replacing. */
  predicate WorkerKeeps(cancel: CancelMode, startOk: bool, replacing: bool, replayOk: bool) {
    cancel != Discard && (startOk || cancel == Keep) && (replayOk || !replacing)
  }

  /** A user stop reports Cancelled whatever the plugin answered; otherwise keeping the rows decides. */
  function WorkerOutcome(cancel: CancelMode, keeps: bool): Outcome {
    if cancel != NoCancel then Cancelled else if keeps then Loaded else Failed
  }

  /** The terminal of a worker load: what the latched stop, the plugin's status and the replay decide. */
  function WorkerTerminal(s: State, startOk: bool, replayOk: bool): Terminal
    requires s.ctx.Some?
  {
    var c := s.ctx.value;
    var keeps := WorkerKeeps(s.cancelMode, startOk, c.replacing, replayOk);
    Terminal(c.ticket, WorkerOutcome(s.cancelMode, keeps), s.currentIdentity, if keeps then c.dataset else 0,
             if keeps then [c.dataset] else [])
  }

  /** The worker path up to its observer-visible end; the queue hand-over is the FinishTail call. */
  function OnWorkerFinished(s: State, generation: nat, startOk: bool, replayOk: bool): State {
    if generation != s.loadGeneration || s.ctx.None? then s
    else
      EmitLoadFinished(s.(worker := None), WorkerTerminal(s, startOk, replayOk))
        .(ctx := None, calls := s.calls + [FinishTail])
  }

  function PopCall(s: State): State
    requires s.calls != []
  {
    s.(calls := s.calls[..|s.calls| - 1])
  }

  function EndWorker(s: State, script: Prologue): State
    requires s.calls != []
  {
    StartNext(PopCall(s).(cancelMode := NoCancel, active := false), script)
  }

  function CancelCurrent(s: State, keep: bool): State {
    if !s.active then s
    else s.(cancelMode := if keep then Keep else Discard, stopped := s.stopped + {s.currentTicket})
  }

  function CancelGeneration(s: State, generation: nat, keep: bool): State {
    if generation == 0 || generation != s.loadGeneration || !s.active then s else CancelCurrent(s, keep)
  }

  function FindTicket(q: seq<Request>, ticket: nat): (i: nat)
    ensures i <= |q|
    ensures i < |q| ==> q[i].ticket == ticket
    ensures forall j :: 0 <= j < i ==> q[j].ticket != ticket
  {
    if q == [] || q[0].ticket == ticket then 0 else 1 + FindTicket(q[1..], ticket)
  }

  predicate Queued(s: State, ticket: nat) {
    FindTicket(s.queue, ticket) < |s.queue|
  }

  /** Takes a queued request out and schedules its terminal. */
  function CancelQueued(s: State, i: nat): State
    requires i < |s.queue|
  {
    var r := s.queue[i];
    EmitLoadFinished(s.(queue := s.queue[..i] + s.queue[i + 1..], stopped := s.stopped + {r.ticket}),
                     Terminal(r.ticket, Cancelled, r.identity, 0, []))
  }

  function CancelLoad(s: State, ticket: nat, keep: bool): (r: (State, bool)) {
    if ticket == 0 then (s, false)
    else if Queued(s, ticket) then (CancelQueued(s, FindTicket(s.queue, ticket)), true)
    else if ticket != s.currentTicket || !s.active || s.currentTerminal then (s, false)
    else (CancelGeneration(s, s.loadGeneration, keep), true)
  }

  /** A fan-out row's stop reaches only the slot of the entry it was raised for. */
  function StopRow(s: State, generation: nat, index: nat, keep: bool): State {
    if generation == s.loadGeneration && s.frame.EntryFrame? && s.frame.index == index then
      s.(frame := s.frame.(rowStop := if keep then Keep else Discard), stopped := s.stopped + {s.currentTicket})
    else s
  }

  function DeliverPending(s: State): State {
    if s.pending == [] then s
    else s.(pending := s.pending[1..], delivered := s.delivered + [s.pending[0]])
  }

  /** A worker's last act is to post its completion. */
  function FinishWorker(s: State, startOk: bool): State {
    match s.worker
    case None => s
    case Some(LoadWorker(g)) => Post(s.(worker := None), WorkerFinished(g, startOk))
    case Some(EntryWorker(g, i)) => Post(s.(worker := None), EntryFinished(g, i, startOk))
  }

  function Unresolved(s: State): seq<Request> {
    (if s.active && !s.currentTerminal then [Request(s.currentTicket, s.currentIdentity)] else []) + s.queue
  }

  function TicketSet(q: seq<Request>): set<nat> {
    set r | r in q :: r.ticket
  }

  /** Shutdown up to the observers it runs after the worker has joined. */
  function BeginShutdown(s: State, startOk: bool): State {
    var collected := Unresolved(s);
    var j := FinishWorker(s.(shuttingDown := true, loadGeneration := 0, cancelMode := Discard), startOk);
    j.(calls := j.calls + [ShutdownTail(collected)], stopped := j.stopped + TicketSet(collected))
  }

  function CancelAll(s: State, collected: seq<Request>): State
    decreases |collected|
  {
    if collected == [] then s
    else
      CancelAll(EmitLoadFinished(s, Terminal(collected[0].ticket, Cancelled, collected[0].identity, 0, [])), collected[1..])
  }

  /** The loader as shutdown leaves it before it resolves what it collected. */
  function Reset(s: State): State
    requires s.calls != []
  {
    PopCall(s).(frame := NoFrame, ctx := None, queue := [], active := false, currentTicket := 0,
                currentIdentity := "", currentTerminal := false, cancelMode := NoCancel, shuttingDown := false)
  }

  /** The rest of shutdown: reset everything, resolve what was collected, then flush. */
  function EndShutdown(s: State): State
    requires s.calls != [] && s.calls[|s.calls| - 1].ShutdownTail?
  {
    var e := CancelAll(Reset(s), s.calls[|s.calls| - 1].collected);
    e.(calls := e.calls + [FlushLoop])
  }

  function FlushStep(s: State): State
    requires s.calls != []
  {
    if s.pending == [] then PopCall(s) else DeliverPending(s)
  }

  function Dispatch(s: State, script: Prologue, replayOk: bool): State
    requires s.events != []
  {
    var n := s.(events := s.events[1..]);
    match s.events[0]
    case StartNextEvent => StartNext(n, script)
    case DeliverEvent => DeliverPending(n)
    case WorkerFinished(g, ok) => OnWorkerFinished(n, g, ok, replayOk)
    case EntryFinished(g, i, ok) =>
      if Awaits(n, g, i) then ResumeEntry(n, ok) else n
    case CancelEvent(t, keep) => CancelLoad(n, t, keep).0
  }

  /** The awaiter of entry `i` of generation `g` is still alive. */
  predicate Awaits(s: State, g: nat, i: nat) {
    && g == s.loadGeneration && s.frame.EntryFrame? && s.frame.index == i
    && i < |s.frame.entries| && s.frame.entries[i].Started?
  }

  // ---------- Runs ----------

  datatype Op =
    | OpLoad(usable: bool, identity: string, script: Prologue)
    | OpCancelLoad(ticket: nat, keep: bool)
    | OpCancelLoadAsync(ticket: nat, keep: bool)
    | OpCancelCurrent(keep: bool)
    | OpCancelGeneration(generation: nat, keep: bool)
    | OpStopRow(generation: nat, index: nat, keep: bool)
    | OpAnswerDialog(answer: DialogAnswer)
    | OpWorkerDone(startOk: bool)
    | OpDispatch(script: Prologue, replayOk: bool)
    | OpShutdown(startOk: bool)
    | OpDestroy(startOk: bool)
    | OpFinishTail(script: Prologue)
    | OpShutdownTail
    | OpFlush

  predicate OnTop(s: State, c: Call) {
    s.calls != [] && s.calls[|s.calls| - 1] == c
  }

  predicate InWindow(s: State) {
    s.calls != [] && s.calls[|s.calls| - 1].ShutdownTail?
  }

  /** A configuration that fans out yields at least two entries; one entry is a single-instance load. */
  predicate ValidPlan(plan: Plan) {
    plan.FanOut? ==> 2 <= |plan.entries|
  }

  predicate ValidPrologue(script: Prologue) {
    script.PrologueReady? ==> ValidPlan(script.plan)
  }

  predicate Enabled(s: State, op: Op) {
    match op
    case OpLoad(_, _, script) => ValidPrologue(script)
    case OpAnswerDialog(answer) => s.calls == [] && s.frame.DialogFrame? && (answer.Accepted? ==> ValidPlan(answer.plan))
    case OpWorkerDone(_) => s.worker.Some?
    case OpDispatch(script, _) => s.calls == [] && s.events != [] && ValidPrologue(script)
    case OpFinishTail(script) => OnTop(s, FinishTail) && ValidPrologue(script)
    case OpShutdownTail => InWindow(s)
    case OpFlush => OnTop(s, FlushLoop)
    case _ => true
  }

  function Step(s: State, op: Op): State
    requires Enabled(s, op)
  {
    match op
    case OpLoad(usable, identity, script) => LoadFileTicketed(s, usable, identity, script)
    case OpCancelLoad(t, keep) => CancelLoad(s, t, keep).0
    case OpCancelLoadAsync(t, keep) => Post(s, CancelEvent(t, keep))
    case OpCancelCurrent(keep) => CancelCurrent(s, keep)
    case OpCancelGeneration(g, keep) => CancelGeneration(s, g, keep)
    case OpStopRow(g, i, keep) => StopRow(s, g, i, keep)
    case OpAnswerDialog(answer) => AnswerDialog(s, answer)
    case OpWorkerDone(ok) => FinishWorker(s, ok)
    case OpDispatch(script, replayOk) => Dispatch(s, script, replayOk)
    case OpShutdown(ok) => BeginShutdown(s, ok)
    case OpDestroy(ok) => BeginShutdown(s.(destroying := true), ok)
    case OpFinishTail(script) => EndWorker(s, script)
    case OpShutdownTail => EndShutdown(s)
    case OpFlush => FlushStep(s)
  }

  /** An observer running inside shutdown's window neither enqueues, nor shuts down again, nor cancels a queued ticket. */
  predicate WindowSafe(s: State, op: Op) {
    InWindow(s) ==>
      match op
      case OpLoad(usable, _, _) => !Accepts(s, usable)
      case OpShutdown(_) => false
      case OpDestroy(_) => false
      case OpCancelLoad(t, _) => t == 0 || !Queued(s, t)
      case _ => true
  }

  /**
   Exactly the calls of an observer in shutdown's window that keep the accounting, once the shutdown has ended: an
   accepted request must find the loader idle with nothing queued and must not stop at a dialog, a nested shutdown must
   find nothing unresolved.
   */
  predicate WindowHarmless(s: State, op: Op) {
    match op
    case OpLoad(usable, _, script) =>
      !Accepts(s, usable) || (!s.active && s.queue == [] && !script.PrologueAtDialog?)
    case OpShutdown(_) => Unresolved(s) == []
    case OpDestroy(_) => Unresolved(s) == []
    case OpCancelLoad(t, _) => t == 0 || !Queued(s, t)
    case _ => true
  }

  /** The worker path hands the queue on while the load it started with is over. */
  predicate TailSafe(s: State, op: Op) {
    op.OpFinishTail? ==> !(s.active && !s.currentTerminal)
  }

  predicate Legal(s: State, op: Op) {
    Enabled(s, op) && WindowSafe(s, op) && TailSafe(s, op)
  }

  predicate LegalRun(s: State, ops: seq<Op>)
    decreases |ops|
  {
    ops == [] || (Legal(s, ops[0]) && LegalRun(Step(s, ops[0]), ops[1..]))
  }

  function Run(s: State, ops: seq<Op>): State
    requires LegalRun(s, ops)
    decreases |ops|
  {
    if ops == [] then s else Run(Step(s, ops[0]), ops[1..])
  }
}
