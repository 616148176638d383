/**
 What a load's terminal tells. Every way a load can end is stated from what the user, the plugin and the dialog did;
 over every run a `Loaded` terminal names data and a `Failed` one names none; and the loop over a fan-out's entries
 tells its ticket the same result as the transaction that keeps their rows.
 */
module LoadOutcomes {
  import opened Basics
  import opened LoadTickets
  import opened LoadTicketSafety
  import opened LoadTransactions

  // ---------- How one load ends ----------

  /** `n` is `s` with the terminal `t` scheduled and posted for delivery. */
  ghost predicate Schedules(s: State, n: State, t: Terminal) {
    && n.pending == s.pending + [t] && n.delivered == s.delivered
    && Deliveries(n.events) == Deliveries(s.events) + 1
  }

  /** The terminal of the current load, naming `produced`. */
  predicate Names(s: State, t: Terminal, produced: seq<nat>) {
    && t.ticket == s.currentTicket && t.identity == s.currentIdentity && t.produced == produced
    && t.dataset == if produced == [] then 0 else produced[0]
  }

  /** What the terminal `t` of a worker load must say, given the stop, the plugin's status and the replay's. */
  predicate TellsWorkerEnd(t: Terminal, c: Context, stop: CancelMode, startOk: bool, replayOk: bool) {
    && t.ticket == c.ticket
    && (t.outcome == Cancelled <==> stop != NoCancel)
    && (t.outcome == Failed <==> stop == NoCancel && (!startOk || (c.replacing && !replayOk)))
    && (t.outcome == Loaded <==> stop == NoCancel && startOk && (c.replacing ==> replayOk))
    && (stop != Discard && (startOk || stop == Keep) && (c.replacing ==> replayOk) ==>
          t.produced == [c.dataset] && t.dataset == c.dataset)
    && (stop == Discard || (!startOk && stop == NoCancel) || (c.replacing && !replayOk) ==>
          t.produced == [] && t.dataset == 0)
  }

  /** A completion that finds its load schedules exactly one terminal, which tells how the load ended. */
  lemma WorkerEndTells(s: State, generation: nat, startOk: bool, replayOk: bool) returns (t: Terminal)
    requires Flags(s) && generation == s.loadGeneration && s.ctx.Some?
    ensures TellsWorkerEnd(t, s.ctx.value, s.cancelMode, startOk, replayOk) && t.identity == s.currentIdentity
    ensures Schedules(s, OnWorkerFinished(s, generation, startOk, replayOk), t)
  {
    t := WorkerTerminal(s, startOk, replayOk);
  }

  /** A prologue that ends schedules the terminal of its own load and leaves the loader free for the next. */
  lemma PrologueEndTells(s: State, outcome: Outcome, produced: seq<nat>) returns (t: Terminal)
    requires Running(s)
    ensures t.outcome == outcome && Names(s, t, produced)
    ensures Schedules(s, EndPrologue(s, outcome, produced), t) && !EndPrologue(s, outcome, produced).active
  {
    t := CurrentTerminal(s, outcome, produced);
  }

  /** The outcome of a prologue that gets no further than `plan`: a latched stop first, then a refused expansion. */
  lemma PastDialogTells(s: State, plan: Plan) returns (t: Terminal)
    requires Running(s) && (s.cancelMode != NoCancel || plan.RefusedExpansion?)
    ensures t.outcome == (if s.cancelMode != NoCancel then Cancelled else Failed) && Names(s, t, [])
    ensures Schedules(s, PastDialog(s, plan), t)
  {
    t := PrologueEndTells(s.(cancelMode := NoCancel), if s.cancelMode != NoCancel then Cancelled else Failed, []);
  }

  /** A request whose prologue fails ends Failed with nothing; one that reuses a dataset ends Loaded, naming it. */
  lemma PrologueTells(s: State, script: Prologue) returns (t: Terminal)
    requires !s.active && !s.shuttingDown && s.frame == NoFrame && s.queue != []
    requires script.PrologueFailed? || script.PrologueReused?
    ensures t.outcome == (if script.PrologueReused? then Loaded else Failed)
    ensures t.ticket == s.queue[0].ticket && t.identity == s.queue[0].identity
    ensures t.produced == if script.PrologueReused? then [script.dataset] else []
    ensures t.dataset == if script.PrologueReused? then script.dataset else 0
    ensures Schedules(s, StartNext(s, script), t)
  {
    t := CurrentTerminal(Dequeue(s), if script.PrologueReused? then Loaded else Failed,
                         if script.PrologueReused? then [script.dataset] else []);
  }

  /** A dialog that is rejected cancels its load; one that breaks its contract or whose configuration is refused fails it. */
  lemma DialogTells(s: State, answer: DialogAnswer) returns (t: Terminal)
    requires Flags(s) && s.calls == [] && s.frame.DialogFrame? && !answer.Accepted?
    ensures t.outcome == (if answer.Rejected? then Cancelled else Failed) && Names(s, t, [])
    ensures Schedules(s, AnswerDialog(s, answer), t)
  {
    t := CurrentTerminal(s, if answer.Rejected? then Cancelled else Failed, []);
  }

  /**
   The end of a fan-out. A discard keeps nothing and cancels; otherwise what was kept is named, and the load is Loaded
   with data and no stop, Cancelled with data and a stop, Failed when nothing was kept and something failed.
   */
  predicate TellsFanOutEnd(t: Terminal, kept: seq<nat>, failures: nat, wholeStop: CancelMode) {
    && t.produced == (if wholeStop == Discard then [] else kept)
    && (t.outcome == Loaded <==> kept != [] && wholeStop == NoCancel)
    && (t.outcome == Failed <==> kept == [] && failures > 0 && wholeStop != Discard)
    && (t.outcome == Cancelled <==>
          wholeStop == Discard || (kept != [] && wholeStop == Keep) || (kept == [] && failures == 0))
  }

  lemma FanOutEndTells(s: State, kept: seq<nat>, failures: nat, wholeStop: CancelMode) returns (t: Terminal)
    requires Running(s)
    ensures TellsFanOutEnd(t, kept, failures, wholeStop) && Names(s, t, t.produced)
    ensures Schedules(s, FanOutEpilogue(s, kept, failures, wholeStop), t)
  {
    var survivors := if wholeStop == Discard then [] else kept;
    t := CurrentTerminal(s, FanOutOutcome(survivors != [], failures, wholeStop), survivors);
  }

  // ---------- What a stop does ----------

  /** A queued request that is cancelled ends at once, with nothing. */
  lemma QueuedCancelTells(s: State, ticket: nat, keep: bool) returns (i: nat)
    requires Inv(s) && ticket != 0 && Queued(s, ticket)
    ensures i < |s.queue| && s.queue[i].ticket == ticket
    ensures Schedules(s, CancelLoad(s, ticket, keep).0, Terminal(ticket, Cancelled, s.queue[i].identity, 0, []))
    ensures CancelLoad(s, ticket, keep).0.queue == s.queue[..i] + s.queue[i + 1..]
  {
    i := FindTicket(s.queue, ticket);
    QueuedIsElsewhere(s, i);
  }

  /** Cancelling the running worker load ends it Cancelled when it returns, with its rows only when they were to be kept. */
  lemma StoppedWorkerTells(s: State, keep: bool, startOk: bool, replayOk: bool) returns (t: Terminal)
    requires Inv(s) && s.ctx.Some? && !InWindow(s)
    ensures var c := CancelLoad(s, s.currentTicket, keep);
      c.1 && c.0.pending == s.pending && Schedules(s, OnWorkerFinished(c.0, s.loadGeneration, startOk, replayOk), t)
    ensures t.ticket == s.currentTicket && t.outcome == Cancelled
    ensures t.produced == if keep && (s.ctx.value.replacing ==> replayOk) then [s.ctx.value.dataset] else []
  {
    var c := CancelLoad(s, s.currentTicket, keep).0;
    CurrentIsNotQueued(s);
    t := WorkerEndTells(c, s.loadGeneration, startOk, replayOk);
  }

  lemma CurrentIsNotQueued(s: State)
    requires Inv(s) && s.active && !s.currentTerminal
    ensures !Queued(s, s.currentTicket)
  {
    if Queued(s, s.currentTicket) {
      QueuedIsElsewhere(s, FindTicket(s.queue, s.currentTicket));
    }
  }

  function CancelledTerminals(q: seq<Request>): seq<Terminal> {
    seq(|q|, i requires 0 <= i < |q| => Terminal(q[i].ticket, Cancelled, q[i].identity, 0, []))
  }

  lemma {:induction false} CancelAllTells(s: State, collected: seq<Request>)
    requires s.currentTicket == 0 && !s.currentTerminal
    requires forall i :: 0 <= i < |collected| ==> 1 <= collected[i].ticket
    ensures CancelAll(s, collected).pending == s.pending + CancelledTerminals(collected)
    decreases |collected|
  {
    if collected != [] {
      CancelAllTells(EmitLoadFinished(s, Terminal(collected[0].ticket, Cancelled, collected[0].identity, 0, [])),
                     collected[1..]);
      assert CancelledTerminals(collected)
          == [Terminal(collected[0].ticket, Cancelled, collected[0].identity, 0, [])] + CancelledTerminals(collected[1..]);
    }
  }

  /** A shutdown ends whatever is unresolved, the running load first and then the queue in order, Cancelled with nothing. */
  lemma ShutdownTells(s: State)
    requires Inv(s) && InWindow(s)
    ensures EndShutdown(s).pending == s.pending + CancelledTerminals(Unresolved(s))
  {
    UnresolvedPositive(s);
    CancelAllTells(Reset(s), Unresolved(s));
  }

  // ---------- A fan-out tells what its transaction keeps ----------

  /** The entries of a transaction as the loop of the loader meets them. */
  function Starts(first: nat, entries: seq<EntryRun>): (r: seq<EntryStart>)
    ensures |r| == |entries|
  {
    seq(|entries|, i requires 0 <= i < |entries| =>
      if entries[i].step == Imports then Started(IdOf(first, entries, i)) else RefusedBeforeStart)
  }

  /** The stops that arrive while the import of entry `e` runs. */
  function Stops(s: State, e: EntryRun): State
    requires s.frame.EntryFrame?
  {
    var r := if e.rowStop != NoCancel then StopRow(s, s.loadGeneration, s.frame.index, e.rowStop == Keep) else s;
    if e.wholeStop != NoCancel then CancelCurrent(r, e.wholeStop == Keep) else r
  }

  /** From entry `k` on, every import that is started is stopped and returns as its entry says. */
  function Play(s: State, entries: seq<EntryRun>, k: nat): State
    requires k <= |entries|
    decreases |entries| - k
  {
    if k == |entries| then s
    else if s.frame.EntryFrame? && s.frame.index == k && FrameShapeAt(s) then
      Play(ResumeEntry(Stops(s, entries[k]), entries[k].startOk), entries, k + 1)
    else Play(s, entries, k + 1)
  }

  predicate FrameShapeAt(s: State)
    requires s.frame.EntryFrame?
  {
    s.frame.index < |s.frame.entries| && s.frame.entries[s.frame.index].Started?
  }

  lemma {:induction false} PlayIsOver(s: State, entries: seq<EntryRun>, k: nat)
    requires k <= |entries| && s.frame == NoFrame
    ensures Play(s, entries, k) == s
    decreases |entries| - k
  {
    if k < |entries| {
      PlayIsOver(s, entries, k + 1);
    }
  }

  /** The loop at entry `k`, with what the entries before it kept and how many failed. */
  function LoopAt(s: State, first: nat, entries: seq<EntryRun>, k: nat): State
    requires k <= |entries|
  {
    RunEntries(s, Starts(first, entries), k, KeptIds(first, entries, k), Failures(entries, k))
  }

  /** The loader while the import of one entry runs. */
  function Importing(s: State, entries: seq<EntryStart>, k: nat, kept: seq<nat>, failures: nat, rowStop: CancelMode): State {
    s.(frame := EntryFrame(entries, k, kept, failures, rowStop), worker := Some(EntryWorker(s.loadGeneration, k)))
  }

  /** The load once the stops of entry `e` have arrived. */
  function StoppedBy(s: State, e: EntryRun): State {
    s.(cancelMode := e.wholeStop,
       stopped := if e.rowStop != NoCancel || e.wholeStop != NoCancel then s.stopped + {s.currentTicket} else s.stopped)
  }

  lemma StopsArrive(s: State, entries: seq<EntryStart>, k: nat, kept: seq<nat>, failures: nat, e: EntryRun)
    requires Running(s) && s.cancelMode == NoCancel
    ensures Stops(Importing(s, entries, k, kept, failures, NoCancel), e)
         == Importing(StoppedBy(s, e), entries, k, kept, failures, e.rowStop)
  {
    assert s.stopped + {s.currentTicket} + {s.currentTicket} == s.stopped + {s.currentTicket};
  }

  lemma EntryReturns(n: State, entries: seq<EntryStart>, k: nat, kept: seq<nat>, failures: nat, e: EntryRun, id: nat)
    requires Running(n) && k < |entries| && entries[k] == Started(id)
    requires e.step == Imports && !e.shutdown && n.cancelMode == e.wholeStop
    ensures var p := Importing(n, entries, k, kept, failures, e.rowStop);
      ResumeEntry(p, e.startOk)
      == ContinueEntries(n, entries, k + 1, if Takes(e) then kept + [id] else kept, failures + if Fails(e) then 1 else 0)
  {
    var p := Importing(n, entries, k, kept, failures, e.rowStop);
    assert p.(frame := NoFrame, worker := None) == n;
  }

  /** The loop has started the import of entry `k`. */
  lemma {:induction false} EntryStarted(s: State, first: nat, entries: seq<EntryRun>, k: nat)
    requires Running(s) && k < |entries| && entries[k].step == Imports
    ensures LoopAt(s, first, entries, k)
         == Importing(s, Starts(first, entries), k, KeptIds(first, entries, k), Failures(entries, k), NoCancel)
  {
  }

  /** One started entry: afterwards the loop stands at the next one, or the whole-load stop has ended it. */
  lemma {:induction false} EntryPlayed(s: State, first: nat, entries: seq<EntryRun>, k: nat)
    requires Running(s) && s.cancelMode == NoCancel && k < |entries|
    requires entries[k].step == Imports && !entries[k].shutdown
    ensures var f := Importing(s, Starts(first, entries), k, KeptIds(first, entries, k), Failures(entries, k), NoCancel);
      && FrameShapeAt(f) && FrameShapeAt(Stops(f, entries[k]))
      && ResumeEntry(Stops(f, entries[k]), entries[k].startOk)
         == ContinueEntries(StoppedBy(s, entries[k]), Starts(first, entries), k + 1, KeptIds(first, entries, k + 1),
                            Failures(entries, k + 1))
  {
    var starts, kept, failures := Starts(first, entries), KeptIds(first, entries, k), Failures(entries, k);
    StopsArrive(s, starts, k, kept, failures, entries[k]);
    EntryReturns(StoppedBy(s, entries[k]), starts, k, kept, failures, entries[k], IdOf(first, entries, k));
    assert KeptIds(first, entries, k + 1) == if Takes(entries[k]) then kept + [IdOf(first, entries, k)] else kept;
    assert Failures(entries, k + 1) == failures + if Fails(entries[k]) then 1 else 0;
  }

  /** One turn of the playing from an entry whose import runs. */
  lemma {:induction false} PlayOne(s: State, first: nat, entries: seq<EntryRun>, k: nat)
    requires Running(s) && s.cancelMode == NoCancel && k < |entries|
    requires entries[k].step == Imports && !entries[k].shutdown
    ensures Play(LoopAt(s, first, entries, k), entries, k)
         == Play(ContinueEntries(StoppedBy(s, entries[k]), Starts(first, entries), k + 1, KeptIds(first, entries, k + 1),
                                 Failures(entries, k + 1)), entries, k + 1)
  {
    EntryStarted(s, first, entries, k);
    EntryPlayed(s, first, entries, k);
  }

  lemma {:induction false} PlayGoesOn(s: State, first: nat, entries: seq<EntryRun>, k: nat)
    requires Running(s) && s.cancelMode == NoCancel && k < |entries|
    requires entries[k].step == Imports && !Ends(entries[k])
    ensures var n := StoppedBy(s, entries[k]);
      && Running(n) && n.cancelMode == NoCancel
      && Play(LoopAt(s, first, entries, k), entries, k) == Play(LoopAt(n, first, entries, k + 1), entries, k + 1)
  {
    PlayOne(s, first, entries, k);
  }

  /** An entry under a whole-load stop is the last one played. */
  lemma {:induction false} LastPlayTells(s: State, first: nat, entries: seq<EntryRun>, k: nat) returns (t: Terminal)
    requires Running(s) && s.cancelMode == NoCancel && k < |entries| && Ends(entries[k]) && !entries[k].shutdown
    requires forall i :: 0 <= i < k ==> !Ends(entries[i])
    ensures PlaysTo(s, first, entries, k, t)
  {
    var n := StoppedBy(s, entries[k]);
    assert Reached(entries) == k + 1;
    t := FanOutEnds(n, first, entries, k + 1);
    LastPlayIsTheEpilogue(s, first, entries, k);
    StopsKeepRecords(s, entries[k], Play(LoopAt(s, first, entries, k), entries, k), t);
  }

  lemma {:induction false} LastPlayIsTheEpilogue(s: State, first: nat, entries: seq<EntryRun>, k: nat)
    requires Running(s) && s.cancelMode == NoCancel && k < |entries| && Ends(entries[k]) && !entries[k].shutdown
    ensures Play(LoopAt(s, first, entries, k), entries, k)
         == FanOutEpilogue(StoppedBy(s, entries[k]), KeptIds(first, entries, k + 1), Failures(entries, k + 1),
                           entries[k].wholeStop)
  {
    var n := StoppedBy(s, entries[k]);
    PlayOne(s, first, entries, k);
    PlayIsOver(FanOutEpilogue(n, KeptIds(first, entries, k + 1), Failures(entries, k + 1), n.cancelMode), entries, k + 1);
  }

  /** The stops of an entry schedule nothing and leave the load its ticket. */
  lemma StopsKeepRecords(s: State, e: EntryRun, n: State, t: Terminal)
    requires Schedules(StoppedBy(s, e), n, t)
    ensures Schedules(s, n, t)
    ensures StoppedBy(s, e).currentTicket == s.currentTicket && StoppedBy(s, e).currentIdentity == s.currentIdentity
  {
  }

  /** What a fan-out's terminal says of the transaction over the same entries. */
  ghost predicate TellsFanOut(t: Terminal, first: nat, entries: seq<EntryRun>) {
    && FanOutAnswer(entries, t.outcome)
    && t.produced == if KeepsData(entries) then KeptIds(first, entries, Reached(entries)) else []
  }

  /** Played from entry `k` to its end, the loop schedules `t`, which tells what the transaction keeps. */
  ghost predicate PlaysTo(s: State, first: nat, entries: seq<EntryRun>, k: nat, t: Terminal)
    requires k <= |entries|
  {
    && TellsFanOut(t, first, entries) && t.ticket == s.currentTicket && t.identity == s.currentIdentity
    && Schedules(s, Play(LoopAt(s, first, entries, k), entries, k), t)
  }

  lemma FanOutEnds(s: State, first: nat, entries: seq<EntryRun>, n: nat) returns (t: Terminal)
    requires Running(s) && n <= |entries| && n == Reached(entries) && (n > 0 ==> !entries[n - 1].shutdown)
    requires s.cancelMode == if n > 0 && Ends(entries[n - 1]) then entries[n - 1].wholeStop else NoCancel
    ensures TellsFanOut(t, first, entries) && t.ticket == s.currentTicket && t.identity == s.currentIdentity
    ensures Schedules(s, FanOutEpilogue(s, KeptIds(first, entries, n), Failures(entries, n), s.cancelMode), t)
    ensures FanOutEpilogue(s, KeptIds(first, entries, n), Failures(entries, n), s.cancelMode).frame == NoFrame
  {
    AnswerOf(entries, first, false, s.cancelMode);
    var survivors := if s.cancelMode == Discard then [] else KeptIds(first, entries, n);
    t := CurrentTerminal(s, FanOutOutcome(survivors != [], Failures(entries, n), s.cancelMode), survivors);
  }

  /** The loop has reached its end without a whole-load stop. */
  lemma {:induction false} WholePlayTells(s: State, first: nat, entries: seq<EntryRun>) returns (t: Terminal)
    requires Running(s) && s.cancelMode == NoCancel
    requires forall i :: 0 <= i < |entries| ==> !entries[i].shutdown && !Ends(entries[i])
    ensures PlaysTo(s, first, entries, |entries|, t)
  {
    t := FanOutEnds(s, first, entries, |entries|);
  }

  /** The stops of an entry schedule nothing and leave the load its ticket. */
  lemma {:induction false} PlayedTells(s: State, first: nat, entries: seq<EntryRun>, k: nat, t: Terminal)
    requires Running(s) && s.cancelMode == NoCancel && k < |entries|
    requires entries[k].step == Imports && !Ends(entries[k])
    requires PlaysTo(StoppedBy(s, entries[k]), first, entries, k + 1, t)
    ensures PlaysTo(s, first, entries, k, t)
  {
    PlayGoesOn(s, first, entries, k);
  }

  lemma {:induction false} SkippedTells(s: State, first: nat, entries: seq<EntryRun>, k: nat, t: Terminal)
    requires Running(s) && k < |entries| && entries[k].step != Imports
    requires PlaysTo(s, first, entries, k + 1, t)
    ensures PlaysTo(s, first, entries, k, t)
  {
    NotAtEntry(s, first, entries, k);
  }

  /** Any state of the loop can be played to its end. */
  ghost predicate Playable(s: State, entries: seq<EntryRun>, k: nat) {
    && Running(s) && s.cancelMode == NoCancel && k <= |entries|
    && (forall i :: 0 <= i < |entries| ==> !entries[i].shutdown)
    && forall i :: 0 <= i < k ==> !Ends(entries[i])
  }

  lemma StaysPlayable(s: State, entries: seq<EntryRun>, k: nat)
    requires Playable(s, entries, k) && k < |entries| && !Ends(entries[k])
    ensures Playable(s, entries, k + 1)
    ensures entries[k].step == Imports ==> Playable(StoppedBy(s, entries[k]), entries, k + 1)
  {
  }

  lemma {:induction false} PlayTells(s: State, first: nat, entries: seq<EntryRun>, k: nat) returns (t: Terminal)
    requires Playable(s, entries, k)
    ensures PlaysTo(s, first, entries, k, t)
    decreases |entries| - k
  {
    if k == |entries| {
      t := WholePlayTells(s, first, entries);
    } else if Ends(entries[k]) {
      t := LastPlayTells(s, first, entries, k);
    } else {
      StaysPlayable(s, entries, k);
      if entries[k].step != Imports {
        t := PlayTells(s, first, entries, k + 1);
        SkippedTells(s, first, entries, k, t);
      } else {
        t := PlayTells(StoppedBy(s, entries[k]), first, entries, k + 1);
        PlayedTells(s, first, entries, k, t);
      }
    }
  }

  /** The loop does not stop at an entry whose import never starts. */
  lemma {:induction false} NotAtEntry(s: State, first: nat, entries: seq<EntryRun>, k: nat)
    requires Running(s) && k < |entries| && entries[k].step != Imports
    ensures LoopAt(s, first, entries, k) == LoopAt(s, first, entries, k + 1)
    ensures Play(LoopAt(s, first, entries, k), entries, k) == Play(LoopAt(s, first, entries, k + 1), entries, k + 1)
  {
    assert Starts(first, entries)[k] == RefusedBeforeStart;
    assert Failures(entries, k + 1) == Failures(entries, k) + 1;
    assert KeptIds(first, entries, k + 1) == KeptIds(first, entries, k);
    LoopGoesOn(s, Starts(first, entries), k + 1, KeptIds(first, entries, k), Failures(entries, k) + 1);
  }

  lemma {:induction false} LoopGoesOn(s: State, entries: seq<EntryStart>, index: nat, kept: seq<nat>, failures: nat)
    requires s.frame == NoFrame && index <= |entries|
    ensures var f := RunEntries(s, entries, index, kept, failures).frame; f.EntryFrame? ==> f.index >= index
    decreases |entries| - index
  {
    if index < |entries| && entries[index].RefusedBeforeStart? {
      LoopGoesOn(s, entries, index + 1, kept, failures + 1);
    }
  }

  /**
   A fan-out whose imports return, and are stopped, as the entries of a transaction say: the terminal scheduled for its
   ticket has the outcome of the transaction and names exactly the datasets the transaction keeps, in order.
   */
  lemma FanOutTellsItsTransaction(s: State, first: nat, entries: seq<EntryRun>) returns (t: Terminal)
    requires Running(s) && s.cancelMode == NoCancel && forall i :: 0 <= i < |entries| ==> !entries[i].shutdown
    ensures FanOutAnswer(entries, t.outcome)
    ensures t.produced == if KeepsData(entries) then KeptIds(first, entries, Reached(entries)) else []
    ensures t.ticket == s.currentTicket && t.identity == s.currentIdentity
    ensures Schedules(s, Play(PastDialog(s, FanOut(Starts(first, entries))), entries, 0), t)
  {
    assert PastDialog(s, FanOut(Starts(first, entries))) == LoopAt(s, first, entries, 0);
    t := PlayTells(s, first, entries, 0);
  }

  // ---------- Over whole runs ----------

  /** The request is the one accepted under its ticket. */
  predicate Named(r: Request, names: seq<string>) {
    1 <= r.ticket <= |names| && r.identity == names[r.ticket - 1]
  }

  /**
   The terminal carries its ticket's own identity; a load that failed left nothing, one that loaded left something, and
   the first of it is the dataset named.
   */
  predicate Truthful(t: Terminal, names: seq<string>) {
    && Named(Request(t.ticket, t.identity), names)
    && (t.outcome == Loaded ==> t.produced != [])
    && (t.outcome == Failed ==> t.produced == [])
    && t.dataset == if t.produced == [] then 0 else t.produced[0]
  }

  ghost predicate AllTruthful(s: State, names: seq<string>) {
    && |names| == s.nextTicket
    && (forall i :: 0 <= i < |s.queue| ==> Named(s.queue[i], names))
    && (s.currentTicket != 0 ==> Named(Request(s.currentTicket, s.currentIdentity), names))
    && (forall i :: 0 <= i < |s.pending| ==> Truthful(s.pending[i], names))
    && (forall i :: 0 <= i < |s.delivered| ==> Truthful(s.delivered[i], names))
  }

  lemma EndTruthful(s: State, names: seq<string>, outcome: Outcome, produced: seq<nat>)
    requires AllTruthful(s, names) && s.currentTicket != 0
    requires (outcome == Loaded ==> produced != []) && (outcome == Failed ==> produced == [])
    ensures AllTruthful(EndPrologue(s, outcome, produced), names)
  {
  }

  lemma EpilogueTruthful(s: State, names: seq<string>, kept: seq<nat>, failures: nat, wholeStop: CancelMode)
    requires AllTruthful(s, names) && s.currentTicket != 0
    ensures AllTruthful(FanOutEpilogue(s, kept, failures, wholeStop), names)
  {
    var survivors := if wholeStop == Discard then [] else kept;
    EndTruthful(s.(cancelMode := NoCancel), names, FanOutOutcome(survivors != [], failures, wholeStop), survivors);
  }

  lemma {:induction false} EntriesTruthful(
    s: State, names: seq<string>, entries: seq<EntryStart>, index: nat, kept: seq<nat>, failures: nat)
    requires AllTruthful(s, names) && s.currentTicket != 0 && index <= |entries|
    ensures AllTruthful(RunEntries(s, entries, index, kept, failures), names)
    decreases |entries| - index
  {
    if index == |entries| {
      EpilogueTruthful(s, names, kept, failures, NoCancel);
    } else if entries[index].RefusedBeforeStart? {
      EntriesTruthful(s, names, entries, index + 1, kept, failures + 1);
    }
  }

  lemma PastDialogTruthful(s: State, names: seq<string>, plan: Plan)
    requires AllTruthful(s, names) && s.currentTicket != 0
    ensures AllTruthful(PastDialog(s, plan), names)
  {
    if s.cancelMode != NoCancel {
      EndTruthful(s.(cancelMode := NoCancel), names, Cancelled, []);
    } else {
      match plan
      case RefusedExpansion => EndTruthful(s, names, Failed, []);
      case SingleInstance(_, _) =>
      case FanOut(entries) => EntriesTruthful(s, names, entries, 0, [], 0);
    }
  }

  lemma BeginTruthful(s: State, names: seq<string>, script: Prologue)
    requires AllTruthful(s, names) && s.currentTicket != 0
    ensures AllTruthful(BeginLoad(s, script), names)
  {
    match script
    case PrologueFailed => EndTruthful(s, names, Failed, []);
    case PrologueReused(dataset) => EndTruthful(s, names, Loaded, [dataset]);
    case PrologueAtDialog =>
    case PrologueReady(plan) => PastDialogTruthful(s, names, plan);
  }

  lemma StartTruthful(s: State, names: seq<string>, script: Prologue)
    requires AllTruthful(s, names)
    ensures AllTruthful(StartNext(s, script), names)
  {
    if !s.active && DropFrame(s).queue != [] {
      BeginTruthful(Dequeue(DropFrame(s)), names, script);
    }
  }

  lemma WorkerTruthful(s: State, names: seq<string>, g: nat, ok: bool, replayOk: bool)
    requires AllTruthful(s, names) && Flags(s)
    ensures AllTruthful(OnWorkerFinished(s, g, ok, replayOk), names)
  {
  }

  lemma ResumeTruthful(s: State, names: seq<string>, ok: bool)
    requires AllTruthful(s, names) && Flags(s) && s.frame.EntryFrame?
    ensures AllTruthful(ResumeEntry(s, ok), names)
  {
    var n := s.(frame := NoFrame, worker := None);
    if s.cancelMode != NoCancel {
      EpilogueTruthful(n, names, KeptAfter(s, ok), FailuresAfter(s, ok), s.cancelMode);
    } else {
      EntriesTruthful(n, names, s.frame.entries, s.frame.index + 1, KeptAfter(s, ok), FailuresAfter(s, ok));
    }
  }

  lemma CancelQueuedTruthful(s: State, names: seq<string>, i: nat)
    requires AllTruthful(s, names) && i < |s.queue|
    ensures AllTruthful(CancelQueued(s, i), names)
  {
  }

  lemma CancelTruthful(s: State, names: seq<string>, t: nat, keep: bool)
    requires AllTruthful(s, names)
    ensures AllTruthful(CancelLoad(s, t, keep).0, names)
  {
    if t != 0 && Queued(s, t) {
      CancelQueuedTruthful(s, names, FindTicket(s.queue, t));
    }
  }

  lemma DeliverTruthful(s: State, names: seq<string>)
    requires AllTruthful(s, names)
    ensures AllTruthful(DeliverPending(s), names)
  {
  }

  lemma DispatchTruthful(s: State, names: seq<string>, script: Prologue, replayOk: bool)
    requires AllTruthful(s, names) && Inv(s) && s.events != [] && s.calls == []
    ensures AllTruthful(Dispatch(s, script, replayOk), names)
  {
    var n := s.(events := s.events[1..]);
    assert AllTruthful(n, names) && Flags(n);
    match s.events[0]
    case StartNextEvent => StartTruthful(n, names, script);
    case DeliverEvent => DeliverTruthful(n, names);
    case WorkerFinished(g, ok) => WorkerTruthful(n, names, g, ok, replayOk);
    case EntryFinished(g, i, ok) =>
      if Awaits(n, g, i) {
        ResumeTruthful(n, names, ok);
      }
    case CancelEvent(t, keep) => CancelTruthful(n, names, t, keep);
  }

  lemma AnswerTruthful(s: State, names: seq<string>, answer: DialogAnswer)
    requires AllTruthful(s, names) && Flags(s) && s.frame.DialogFrame?
    ensures AllTruthful(AnswerDialog(s, answer), names)
  {
    var n := s.(frame := NoFrame);
    match answer
    case ContractViolation => EndTruthful(n, names, Failed, []);
    case ConfigRefused => EndTruthful(n, names, Failed, []);
    case Rejected => EndTruthful(n.(stopped := n.stopped + {n.currentTicket}), names, Cancelled, []);
    case Accepted(plan) => PastDialogTruthful(n, names, plan);
  }

  lemma EndShutdownTruthful(s: State, names: seq<string>)
    requires AllTruthful(s, names) && Inv(s) && InWindow(s)
    ensures AllTruthful(EndShutdown(s), names)
  {
    ShutdownTells(s);
    ShutdownEmpties(s);
    UnresolvedNamed(s, names);
    CancelledTruthful(s.pending, Unresolved(s), names);
  }

  lemma ShutdownEmpties(s: State)
    requires Inv(s) && InWindow(s)
    ensures var e := EndShutdown(s);
      e.queue == [] && e.currentTicket == 0 && e.delivered == s.delivered && e.nextTicket == s.nextTicket
  {
    UnresolvedPositive(s);
    CancelAllForm(Reset(s), Unresolved(s), 0);
  }

  lemma UnresolvedNamed(s: State, names: seq<string>)
    requires AllTruthful(s, names) && Flags(s)
    ensures forall i :: 0 <= i < |Unresolved(s)| ==> Named(Unresolved(s)[i], names)
  {
    var u := Unresolved(s);
    forall i | 0 <= i < |u| ensures Named(u[i], names) {
      if |u| == |s.queue| { assert u == s.queue; } else if i > 0 { assert u[i] == s.queue[i - 1]; }
    }
  }

  lemma CancelledTruthful(pending: seq<Terminal>, q: seq<Request>, names: seq<string>)
    requires forall i :: 0 <= i < |pending| ==> Truthful(pending[i], names)
    requires forall i :: 0 <= i < |q| ==> Named(q[i], names)
    ensures var n := pending + CancelledTerminals(q); forall i :: 0 <= i < |n| ==> Truthful(n[i], names)
  {
  }

  /** Calls that only latch a stop or post something schedule no terminal. */
  lemma LatchTruthful(s: State, names: seq<string>, op: Op)
    requires AllTruthful(s, names)
    requires op.OpCancelLoadAsync? || op.OpCancelCurrent? || op.OpCancelGeneration? || op.OpStopRow?
    ensures AllTruthful(Step(s, op), names)
  {
    assert SameRecords(s, Step(s, op));
  }

  predicate SameRecords(s: State, n: State) {
    && n.pending == s.pending && n.delivered == s.delivered && n.queue == s.queue && n.nextTicket == s.nextTicket
    && n.currentTicket == s.currentTicket && n.currentIdentity == s.currentIdentity
  }

  lemma DoneTruthful(s: State, names: seq<string>, startOk: bool)
    requires AllTruthful(s, names)
    ensures AllTruthful(FinishWorker(s, startOk), names)
  {
    assert SameRecords(s, FinishWorker(s, startOk));
  }

  lemma ShutTruthful(s: State, names: seq<string>, startOk: bool)
    requires AllTruthful(s, names)
    ensures AllTruthful(BeginShutdown(s, startOk), names)
  {
    DoneTruthful(s.(shuttingDown := true, loadGeneration := 0, cancelMode := Discard), names, startOk);
  }

  /** The identity this step is accepted under, if it is a request. */
  function AcceptedNow(s: State, op: Op): seq<string> {
    if op.OpLoad? && Accepts(s, op.usable) then [op.identity] else []
  }

  lemma LoadTruthful(s: State, names: seq<string>, op: Op)
    requires AllTruthful(s, names) && op.OpLoad?
    ensures AllTruthful(LoadFileTicketed(s, op.usable, op.identity, op.script), names + AcceptedNow(s, op))
  {
    if Accepts(s, op.usable) {
      var q, more := Enqueue(s, op.identity), names + [op.identity];
      assert more[|names|] == op.identity && forall i :: 0 <= i < |names| ==> more[i] == names[i];
      assert AllTruthful(q, more);
      StartTruthful(q, more, op.script);
    } else {
      assert names + [] == names;
    }
  }

  lemma LoopTruthful(s: State, names: seq<string>, op: Op)
    requires AllTruthful(s, names) && Inv(s) && Enabled(s, op) && !op.OpLoad?
    ensures AllTruthful(Step(s, op), names)
  {
    match op
    case OpCancelLoad(t, keep) => CancelTruthful(s, names, t, keep);
    case OpCancelLoadAsync(_, _) => LatchTruthful(s, names, op);
    case OpCancelCurrent(_) => LatchTruthful(s, names, op);
    case OpCancelGeneration(_, _) => LatchTruthful(s, names, op);
    case OpStopRow(_, _, _) => LatchTruthful(s, names, op);
    case OpAnswerDialog(answer) => AnswerTruthful(s, names, answer);
    case OpWorkerDone(ok) => DoneTruthful(s, names, ok);
    case OpDispatch(script, replayOk) => DispatchTruthful(s, names, script, replayOk);
    case OpShutdown(ok) => ShutTruthful(s, names, ok);
    case OpDestroy(ok) => ShutTruthful(s.(destroying := true), names, ok);
    case OpFinishTail(script) => StartTruthful(PopCall(s).(cancelMode := NoCancel, active := false), names, script);
    case OpShutdownTail => EndShutdownTruthful(s, names);
    case OpFlush => DeliverTruthful(s, names);
  }

  /** The identities of the accepted requests of a run, in order: ticket `t` is the `t`-th of them. */
  function Accepted(s: State, ops: seq<Op>): seq<string>
    requires LegalRun(s, ops)
    decreases |ops|
  {
    if ops == [] then [] else AcceptedNow(s, ops[0]) + Accepted(Step(s, ops[0]), ops[1..])
  }

  lemma StepTruthful(s: State, names: seq<string>, op: Op)
    requires AllTruthful(s, names) && Inv(s) && Legal(s, op)
    ensures AllTruthful(Step(s, op), names + AcceptedNow(s, op))
  {
    if op.OpLoad? {
      LoadTruthful(s, names, op);
    } else {
      LoopTruthful(s, names, op);
      assert names + [] == names;
    }
  }

  lemma {:induction false} RunTruthful(s: State, names: seq<string>, ops: seq<Op>)
    requires AllTruthful(s, names) && Inv(s) && LegalRun(s, ops)
    ensures AllTruthful(Run(s, ops), names + Accepted(s, ops))
    decreases |ops|
  {
    if ops == [] {
      assert names + [] == names;
    } else {
      StepKeeps(s, ops[0]);
      StepTruthful(s, names, ops[0]);
      var rest := Accepted(Step(s, ops[0]), ops[1..]);
      RunTruthful(Step(s, ops[0]), names + AcceptedNow(s, ops[0]), ops[1..]);
      assert names + (AcceptedNow(s, ops[0]) + rest) == names + AcceptedNow(s, ops[0]) + rest;
    }
  }

  /**
   Over every run, a terminal scheduled or delivered carries the identity its ticket was accepted under; as `Loaded` it
   names the data it loaded, as `Failed` it names none, and the dataset it names first is the first it produced.
   */
  lemma TerminalsAreTruthful(ops: seq<Op>, t: Terminal)
    requires LegalRun(INITIAL, ops) && (t in Run(INITIAL, ops).pending || t in Run(INITIAL, ops).delivered)
    ensures 1 <= t.ticket <= |Accepted(INITIAL, ops)| && t.identity == Accepted(INITIAL, ops)[t.ticket - 1]
    ensures t.outcome == Loaded ==> t.produced != []
    ensures t.outcome == Failed ==> t.produced == []
    ensures t.dataset == if t.produced == [] then 0 else t.produced[0]
  {
    NothingToTell();
    RunTruthful(INITIAL, [], ops);
    assert [] + Accepted(INITIAL, ops) == Accepted(INITIAL, ops);
    EachIsTruthful(Run(INITIAL, ops), Accepted(INITIAL, ops), t);
  }

  lemma EachIsTruthful(s: State, names: seq<string>, t: Terminal)
    requires AllTruthful(s, names) && (t in s.pending || t in s.delivered)
    ensures Truthful(t, names)
  {
  }

  lemma NothingToTell()
    ensures Inv(INITIAL) && AllTruthful(INITIAL, [])
  {
  }
}
