/**
 The window inside shutdown in which observers run: which of their calls break the exactly-once promise. Shutdown has
 collected the tickets it will resolve by then, and it clears the loader's state afterwards.
 */
module LoadWindow {
  import opened Basics
  import opened LoadTickets
  import opened LoadTicketSafety
  import opened LoadTicketTheorems

  /** The calls an observer slot can make on the loader. */
  predicate ByObserver(op: Op) {
    op.OpLoad? || op.OpCancelLoad? || op.OpCancelLoadAsync? || op.OpCancelCurrent? || op.OpCancelGeneration?
    || op.OpStopRow? || op.OpShutdown? || op.OpDestroy?
  }

  /** What the flush loop of the innermost shutdown leaves. */
  ghost function Flushed(s: State): State
    requires s.calls != []
  {
    PopCall(s).(pending := [], delivered := s.delivered + s.pending)
  }

  ghost function Nested(s: State, startOk: bool): State {
    Flushed(EndShutdown(BeginShutdown(s, startOk)))
  }

  /** The observer's call to its end: a nested shutdown runs through, anything else is one step. */
  ghost function Called(s: State, op: Op): State
    requires Enabled(s, op) && ByObserver(op)
  {
    match op
    case OpShutdown(ok) => Nested(s, ok)
    case OpDestroy(ok) => Nested(s.(destroying := true), ok)
    case _ => Step(s, op)
  }

  lemma {:induction false} ResolvedConcat(a: seq<Terminal>, b: seq<Terminal>, t: nat)
    ensures Resolved(a + b, t) == Resolved(a, t) + Resolved(b, t)
  {
    if a == [] {
      assert a + b == b;
    } else {
      assert (a + b)[1..] == a[1..] + b;
      ResolvedConcat(a[1..], b, t);
    }
  }

  /** Where a ticket is once shutdown has ended: where it was delivered or scheduled, and once more if it was collected. */
  lemma EndedPlaces(s: State, t: nat)
    requires InWindow(s) && var c := s.calls[|s.calls| - 1].collected; forall i :: 0 <= i < |c| ==> 1 <= c[i].ticket
    ensures var n := EndShutdown(s);
      && Places(n, t)
         == Resolved(s.pending, t) + Resolved(s.delivered, t) + Waiting(s.calls[|s.calls| - 1].collected, t)
      && Resolved(n.pending, t) == Resolved(s.pending, t) + Waiting(s.calls[|s.calls| - 1].collected, t)
      && n.delivered == s.delivered && n.nextTicket == s.nextTicket
      && n.calls == s.calls[..|s.calls| - 1] + [FlushLoop]
  {
    CancelAllForm(Reset(s), s.calls[|s.calls| - 1].collected, t);
  }

  // ---------- A request accepted in the window ----------

  /** An idle loader picks up the front request at once; whatever ends its prologue schedules a terminal. */
  lemma PickUpForm(s: State, identity: string, script: Prologue)
    requires Inv(s) && InWindow(s) && !s.active && !s.destroying
    ensures var l := LoadFileTicketed(s, true, identity, script);
      && l.calls == s.calls && l.delivered == s.delivered && l.nextTicket == s.nextTicket + 1
      && if script.PrologueAtDialog? then l.pending == s.pending
         else
           && |l.pending| == |s.pending| + 1 && l.pending[..|s.pending|] == s.pending
           && l.pending[|s.pending|].ticket == if s.queue == [] then l.nextTicket else s.queue[0].ticket
  {
    var e := Enqueue(s, identity);
    assert DropFrame(e) == e;
    assert e.queue[0] == if s.queue == [] then Request(e.nextTicket, identity) else s.queue[0];
  }

  lemma LoadPlaces(s: State, identity: string, script: Prologue, t: nat)
    requires Inv(s) && InWindow(s) && !s.destroying
    ensures InWindow(LoadFileTicketed(s, true, identity, script))
    ensures var n := EndShutdown(LoadFileTicketed(s, true, identity, script));
      && n.nextTicket == s.nextTicket + 1
      && Places(n, t) == Places(s, t)
           + if s.active || script.PrologueAtDialog? then 0
             else if t == (if s.queue == [] then n.nextTicket else s.queue[0].ticket) then 1 else 0
  {
    var l := LoadFileTicketed(s, true, identity, script);
    UnresolvedPositive(s);
    UnresolvedWaiting(s, t);
    if !s.active {
      PickUpForm(s, identity, script);
      if !script.PrologueAtDialog? {
        assert l.pending == s.pending + [l.pending[|s.pending|]];
        ResolvedPush(s.pending, l.pending[|s.pending|], t);
      }
    }
    EndedPlaces(l, t);
  }

  lemma LoadExact(s: State, identity: string, script: Prologue)
    requires Inv(s) && InWindow(s) && !s.destroying
    ensures InWindow(LoadFileTicketed(s, true, identity, script))
    ensures Accounted(EndShutdown(LoadFileTicketed(s, true, identity, script)))
       <==> !s.active && s.queue == [] && !script.PrologueAtDialog?
  {
    var n := EndShutdown(LoadFileTicketed(s, true, identity, script));
    var minted := s.nextTicket + 1;
    LoadPlaces(s, identity, script, minted);
    if !s.active && s.queue == [] && !script.PrologueAtDialog? {
      forall t: nat ensures Places(n, t) == if 1 <= t <= n.nextTicket then 1 else 0 {
        LoadPlaces(s, identity, script, t);
      }
    } else {
      if s.queue != [] { QueuedIsElsewhere(s, 0); }
      assert Places(n, minted) == 0;
    }
  }

  /** A request accepted from inside the shutdown of a load is dropped without a terminal. */
  lemma WindowEnqueueIsLost(s: State, identity: string, script: Prologue)
    requires Inv(s) && InWindow(s) && s.active && !s.destroying
    ensures var n := EndShutdown(LoadFileTicketed(s, true, identity, script));
      n.nextTicket == s.nextTicket + 1 && Places(n, n.nextTicket) == 0
  {
    LoadPlaces(s, identity, script, s.nextTicket + 1);
  }

  // ---------- A queued ticket cancelled in the window ----------

  /** A queued ticket cancelled from inside shutdown gets a second terminal. */
  lemma WindowCancelResolvesTwice(s: State, i: nat)
    requires Inv(s) && InWindow(s) && i < |s.queue|
    ensures Places(EndShutdown(CancelQueued(s, i)), s.queue[i].ticket) == 2
  {
    var r := s.queue[i];
    UnresolvedPositive(s);
    UnresolvedWaiting(s, r.ticket);
    QueuedIsElsewhere(s, i);
    ResolvedPush(s.pending, Terminal(r.ticket, Cancelled, r.identity, 0, []), r.ticket);
    EndedPlaces(CancelQueued(s, i), r.ticket);
    WaitingRemove(s.queue, i, r.ticket);
    assert Places(s, r.ticket) == 1;
  }

  // ---------- A shutdown nested in the window ----------

  /** A nested shutdown resolves what was collected, and then the outer one resolves it again. */
  lemma NestedPlaces(s: State, startOk: bool, t: nat)
    requires Inv(s) && InWindow(s)
    ensures var f := Nested(s, startOk);
      && f.calls == s.calls && f.nextTicket == s.nextTicket
      && Places(EndShutdown(f), t) == Places(s, t) + Waiting(Unresolved(s), t)
  {
    UnresolvedPositive(s);
    UnresolvedWaiting(s, t);
    var b := BeginShutdown(s, startOk);
    assert b.calls[..|b.calls| - 1] == s.calls;
    EndedPlaces(b, t);
    var inner := EndShutdown(b);
    assert inner.calls[..|inner.calls| - 1] == s.calls;
    ResolvedConcat(inner.delivered, inner.pending, t);
    EndedPlaces(Flushed(inner), t);
  }

  /** A shutdown nested in shutdown's window resolves every collected ticket twice. */
  lemma NestedShutdownResolvesTwice(s: State, startOk: bool, t: nat)
    requires Inv(s) && InWindow(s) && Waiting(Unresolved(s), t) >= 1
    ensures var f := Nested(s, startOk);
      f.calls == s.calls && Places(EndShutdown(f), t) == 2
  {
    NestedPlaces(s, startOk, t);
    UnresolvedWaiting(s, t);
    assert Places(s, t) == 1;
  }

  lemma NestedExact(s: State, startOk: bool)
    requires Inv(s) && InWindow(s)
    ensures var f := Nested(s, startOk);
      f.calls == s.calls && (Accounted(EndShutdown(f)) <==> Unresolved(s) == [])
  {
    var f := Nested(s, startOk);
    NestedPlaces(s, startOk, 0);
    var n := EndShutdown(f);
    if Unresolved(s) == [] {
      forall t: nat ensures Places(n, t) == Places(s, t) { NestedPlaces(s, startOk, t); }
      EndedPlaces(f, 0);
    } else {
      var t := Unresolved(s)[0].ticket;
      NestedShutdownResolvesTwice(s, startOk, t);
    }
  }

  lemma DestroyedInv(s: State)
    requires Inv(s)
    ensures Inv(s.(destroying := true)) && Unresolved(s.(destroying := true)) == Unresolved(s)
  {
    SameLedgerKeeps(s, s.(destroying := true));
    assert Control(s.(destroying := true));
  }

  // ---------- Exactly which calls ----------

  /** The calls the runs allow in the window are harmless; in the window of an unresolved load there are no others. */
  lemma SafeIsHarmless(s: State, op: Op)
    requires Inv(s) && InWindow(s) && ByObserver(op)
    ensures WindowSafe(s, op) ==> WindowHarmless(s, op)
    ensures s.active && !s.currentTerminal ==> (WindowSafe(s, op) <==> WindowHarmless(s, op))
  {
  }

  ghost predicate Exact(s: State, op: Op)
    requires Enabled(s, op) && ByObserver(op)
  {
    InWindow(Called(s, op)) && (Accounted(EndShutdown(Called(s, op))) <==> WindowHarmless(s, op))
  }

  lemma SafeCallExact(s: State, op: Op)
    requires Inv(s) && InWindow(s) && Legal(s, op) && ByObserver(op)
    requires op.OpLoad? ==> !Accepts(s, op.usable)
    ensures Exact(s, op)
  {
    StepKeeps(s, op);
    EndShutdownKeeps(Step(s, op));
  }

  lemma CancelCallExact(s: State, op: Op)
    requires Inv(s) && InWindow(s) && op.OpCancelLoad? && op.ticket != 0 && Queued(s, op.ticket)
    ensures Exact(s, op)
  {
    var i := FindTicket(s.queue, op.ticket);
    QueuedIsElsewhere(s, i);
    WindowCancelResolvesTwice(s, i);
  }

  lemma DestroyCallExact(s: State, startOk: bool)
    requires Inv(s) && InWindow(s)
    ensures Exact(s, OpDestroy(startOk))
  {
    DestroyedInv(s);
    NestedExact(s.(destroying := true), startOk);
    InNested(s.(destroying := true), startOk);
  }

  lemma ShutdownCallExact(s: State, startOk: bool)
    requires Inv(s) && InWindow(s)
    ensures Exact(s, OpShutdown(startOk))
  {
    NestedExact(s, startOk);
    InNested(s, startOk);
  }

  lemma InNested(s: State, startOk: bool)
    requires InWindow(s) && Nested(s, startOk).calls == s.calls
    ensures InWindow(Nested(s, startOk))
  {
  }

  /** A call an observer makes inside shutdown's window keeps every ticket in one place if and only if it is harmless. */
  lemma WindowExact(s: State, op: Op)
    requires Inv(s) && InWindow(s) && Enabled(s, op) && ByObserver(op)
    ensures InWindow(Called(s, op))
    ensures Accounted(EndShutdown(Called(s, op))) <==> WindowHarmless(s, op)
  {
    assert Exact(s, op) by {
      if op.OpShutdown? {
        ShutdownCallExact(s, op.startOk);
      } else if op.OpDestroy? {
        DestroyCallExact(s, op.startOk);
      } else if op.OpLoad? && Accepts(s, op.usable) {
        LoadExact(s, op.identity, op.script);
      } else if op.OpCancelLoad? && op.ticket != 0 && Queued(s, op.ticket) {
        CancelCallExact(s, op);
      } else {
        SafeCallExact(s, op);
      }
    }
  }

  // ---------- Such a window is reached ----------

  /** The first load runs on its worker, a second request is queued, and shutdown is running its observers. */
  const IN_WINDOW :=
    INITIAL.(queue := [Request(2, "b")], currentTicket := 1, currentIdentity := "a", active := true,
             cancelMode := Discard, nextGeneration := 1, nextTicket := 2, shuttingDown := true,
             ctx := Some(Context(1, 7, false)), events := [WorkerFinished(1, true)],
             calls := [ShutdownTail([Request(1, "a"), Request(2, "b")])], stopped := {1, 2})

  lemma ShutdownEntersWindow()
    ensures Step(ONE_RUNNING.(queue := [Request(2, "b")], nextTicket := 2), OpShutdown(true)) == IN_WINDOW
  {
    var s := ONE_RUNNING.(queue := [Request(2, "b")], nextTicket := 2);
    assert Unresolved(s) == [Request(1, "a"), Request(2, "b")];
    assert TicketSet(Unresolved(s)) == {1, 2} by {
      assert Request(1, "a") in Unresolved(s) && Request(2, "b") in Unresolved(s);
    }
  }

  lemma SecondLoadQueues()
    ensures Step(ONE_RUNNING, OpLoad(true, "b", PrologueFailed))
         == ONE_RUNNING.(queue := [Request(2, "b")], nextTicket := 2)
  {
  }

  lemma InWindowIsReachable()
    ensures exists ops: seq<Op> :: LegalRun(INITIAL, ops) && Run(INITIAL, ops) == IN_WINDOW
  {
    var first := OpLoad(true, "a", PrologueReady(SingleInstance(7, false)));
    var second := OpLoad(true, "b", PrologueFailed);
    FirstLoadRuns();
    SecondLoadQueues();
    ShutdownEntersWindow();
    Extend(Step(ONE_RUNNING, second), OpShutdown(true), []);
    Extend(ONE_RUNNING, second, [OpShutdown(true)] + []);
    Extend(INITIAL, first, [second] + ([OpShutdown(true)] + []));
    var ops := [first] + ([second] + ([OpShutdown(true)] + []));
    assert LegalRun(INITIAL, ops) && Run(INITIAL, ops) == IN_WINDOW;
  }

  lemma InWindowInv()
    ensures Inv(IN_WINDOW)
  {
    InWindowIsReachable();
    var ops: seq<Op> :| LegalRun(INITIAL, ops) && Run(INITIAL, ops) == IN_WINDOW;
    assert Inv(INITIAL);
    RunKeeps(INITIAL, ops);
  }

  /** From one reachable state: a new request is lost, the queued one and the running one can get two terminals each. */
  lemma WindowBreaksPromises(script: Prologue)
    ensures exists ops: seq<Op> :: LegalRun(INITIAL, ops) && Run(INITIAL, ops) == IN_WINDOW
    ensures Places(EndShutdown(LoadFileTicketed(IN_WINDOW, true, "c", script)), 3) == 0
    ensures Places(EndShutdown(CancelLoad(IN_WINDOW, 2, false).0), 2) == 2
    ensures Places(EndShutdown(Nested(IN_WINDOW, true)), 1) == 2
  {
    InWindowIsReachable();
    InWindowInv();
    WindowEnqueueIsLost(IN_WINDOW, "c", script);
    assert FindTicket(IN_WINDOW.queue, 2) == 0;
    WindowCancelResolvesTwice(IN_WINDOW, 0);
    UnresolvedWaiting(IN_WINDOW, 1);
    NestedShutdownResolvesTwice(IN_WINDOW, true, 1);
  }
}
