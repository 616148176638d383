/** The import batch over whole runs: one place per source, finished() once and last, rollback, and termination. */
module LayoutImportTheorems {
  import opened Basics
  import opened LayoutImport
  import opened LayoutImportSafety

  datatype Op =
    | PrepareOp(facts: seq<Facts>)
    | StartOp(choice: Choice, env: Env)
    | LoadFinishedOp(ticket: nat, outcome: LoadOutcome, ids: seq<nat>, env: Env)
    | JobDatasetOp(id: nat)
    | JobTerminalOp(jobOutcome: JobOutcome, env: Env)
    | CancelOp
    | OtherTicketOp

  predicate Enabled(b: Batch, op: Op) {
    match op
    case PrepareOp(_) => b.stage == Idle
    case StartOp(_, _) => b.stage == Prepared && InRange(b)
    case LoadFinishedOp(_, _, _, _) => InRange(b)
    case JobDatasetOp(_) => b.active.Some?
    case JobTerminalOp(_, _) => b.active.Some? && InRange(b)
    case CancelOp => InRange(b)
    case OtherTicketOp => true
  }

  function Step(b: Batch, op: Op): Batch
    requires Enabled(b, op)
  {
    match op
    case PrepareOp(facts) => Prepare(b, facts)
    case StartOp(choice, env) => Start(b, choice, env)
    case LoadFinishedOp(t, outcome, ids, env) => OnLoadFinished(b, t, outcome, ids, env)
    case JobDatasetOp(id) => Report(b, [id])
    case JobTerminalOp(outcome, env) => OnJobTerminal(b, outcome, env)
    case CancelOp => Cancel(b)
    case OtherTicketOp => b.(nextTicket := b.nextTicket + 1)
  }

  predicate LegalRun(b: Batch, ops: seq<Op>)
    decreases |ops|
  {
    ops == [] || (Enabled(b, ops[0]) && LegalRun(Step(b, ops[0]), ops[1..]))
  }

  function Run(b: Batch, ops: seq<Op>): Batch
    requires LegalRun(b, ops)
    decreases |ops|
  {
    if ops == [] then b else Run(Step(b, ops[0]), ops[1..])
  }

  // ---------- Invariant ----------

  function Ids(s: seq<nat>): set<nat> {
    set x | x in s
  }

  predicate Untouched(b: Batch) {
    b.effects == [] && b.produced == [] && b.ledger == [] && b.before.None? && !b.checkpoint
  }

  ghost predicate AllPlanned(b: Batch) {
    forall i :: 0 <= i < |b.sources| ==>
      var s := b.sources[i];
      (s.plan == Done <==> s.result.Some?) && SourceConsent(s) && s.ticket.None?
  }

  ghost predicate NoneConfirmed(b: Batch) {
    forall i :: 0 <= i < |b.sources| ==> !b.sources[i].confirmed
  }

  ghost predicate AllConcluded(b: Batch) {
    forall i :: 0 <= i < |b.sources| ==> b.sources[i].result.Some?
  }

  /** What has happened around a batch that is under way. */
  predicate UnderWay(b: Batch) {
    && b.before.Some? && b.checkpoint == b.config.checkpoints && b.produced == b.ledger
    && b.effects == (if b.checkpoint then [Checkpoint] else [])
    && b.live == b.before.value + Ids(b.ledger)
  }

  ghost predicate Active(b: Batch) {
    && (b.stage == Running || b.stage == Cancelling)
    && Placed(b, {}) && Linked(b) && Consented(b) && UnderWay(b)
    && (b.cancelled <==> b.stage == Cancelling)
    && (b.queue != [] ==> b.stage == Running && b.active.Some?)
  }

  /** Everything a finished batch has done to its surroundings, in order. */
  function Trace(b: Batch): seq<Effect> {
    if b.before.None? then (if b.cancelled then [EmitFinished] else [])
    else if b.cancelled && b.checkpoint then [Checkpoint] + Removals(b.ledger) + [Restore] + [EmitFinished]
    else (if b.checkpoint then [Checkpoint] else []) + [EmitFinished]
  }

  ghost predicate Ended(b: Batch) {
    && Drained(b) && b.effects == Trace(b)
    && (b.before.Some? || b.cancelled ==> AllConcluded(b))
    && (b.before.Some? ==>
          && b.checkpoint == b.config.checkpoints
          && b.live == if b.cancelled && b.checkpoint then b.before.value - Ids(b.ledger)
                       else b.before.value + Ids(b.ledger))
  }

  ghost predicate Inv(b: Batch) {
    match b.stage
    case Idle => Drained(b) && Untouched(b) && !b.cancelled && b.sources == []
    case Prepared => Drained(b) && Untouched(b) && !b.cancelled && AllPlanned(b) && NoneConfirmed(b)
    case Running => Active(b) && !Drained(b)
    case Cancelling => Active(b) && !Drained(b)
    case Finished => Ended(b)
  }

  // ---------- Every operation keeps it ----------

  lemma MaybeFinishKeeps(b: Batch)
    requires Active(b)
    ensures Inv(MaybeFinish(b)) && MaybeFinish(b).before == b.before && |MaybeFinish(b).sources| == |b.sources|
  {
    if Drained(b) {
      var n := MaybeFinish(b);
      forall i | 0 <= i < |n.sources| ensures n.sources[i].result.Some? {
        assert Places(b, i) == 1;
      }
      assert b.before.value + Ids(b.ledger) - Ids(b.ledger) == b.before.value - Ids(b.ledger);
    }
  }

  lemma ReportKeeps(b: Batch, ids: seq<nat>)
    requires UnderWay(b)
    ensures UnderWay(Report(b, ids))
  {
    assert Ids(b.ledger + ids) == Ids(b.ledger) + Ids(ids);
  }

  lemma JobDatasetKeeps(b: Batch, id: nat)
    requires Active(b) && !Drained(b)
    ensures var n := Report(b, [id]); Active(n) && !Drained(n)
  {
    var n := Report(b, [id]);
    ReportKeeps(b, [id]);
    forall i | 0 <= i < |n.sources| ensures Places(n, i) == Due(i, {}) { assert Places(b, i) == Due(i, {}); }
  }

  lemma PrepareKeeps(b: Batch, facts: seq<Facts>)
    requires Inv(b) && b.stage == Idle
    ensures Inv(Prepare(b, facts))
  {
    forall i | 0 <= i < |facts| ensures var s := PlanSource(facts[i], b.config);
        (s.plan == Done <==> s.result.Some?) && SourceConsent(s) && s.ticket.None? && !s.confirmed {
      PlanSourceResult(facts[i], b.config);
    }
  }

  /** The prompt: what was asked about is confirmed or skipped. */
  lemma ConsentAnswers(b: Batch, choice: Choice)
    requires AllPlanned(b) && !Declined(b, choice)
    ensures var n := Consent(b, choice);
      AllPlanned(n) && Answered(n, 0) && n == b.(sources := n.sources) && |n.sources| == |b.sources|
  {
  }

  /** Before start()'s loop every source with something to do is in no place, and every other has concluded. */
  lemma PlannedIsPlaced(b: Batch)
    requires AllPlanned(b) && Drained(b)
    ensures Placed(b, Unlaunched(b, 0)) && Linked(b) && Consented(b)
  {
    forall i | 0 <= i < |b.sources| ensures Places(b, i) == Due(i, Unlaunched(b, 0)) {
    }
  }

  lemma StartKeeps(b: Batch, choice: Choice, env: Env)
    requires Inv(b) && b.stage == Prepared
    ensures InRange(b) && Inv(Start(b, choice, env))
  {
    if !Declined(b, choice) {
      var asked := Consent(b, choice);
      ConsentAnswers(b, choice);
      if HasPendingWork(asked) {
        var s := Started(asked);
        assert s.live == s.before.value + Ids([]);
        PlannedIsPlaced(s);
        LaunchKeeps(s, 0, env);
        var l := Launch(s, 0, env);
        StartNextJobKeeps(l, env, {});
        StartNextJobConsent(l, env);
        StartNextJobBusy(l, env);
        MaybeFinishKeeps(StartNextJob(l, env));
      }
    }
  }

  lemma JobTerminalKeeps(b: Batch, outcome: JobOutcome, env: Env)
    requires Active(b) && b.active.Some?
    ensures var n := OnJobTerminal(b, outcome, env); Inv(n) && n.before == b.before && |n.sources| == |b.sources|
  {
    var i := b.active.value;
    var r := b.(active := None);
    RetirePlaces(b);
    var s := r.sources[i].(result := Some(JobResult(outcome)));
    assert Ready(r, i, {i});
    ConcludeKeepsConsent(r, i, s);
    var n := SetResult(r, i, JobResult(outcome));
    StartNextJobKeeps(n, env, {});
    StartNextJobConsent(n, env);
    StartNextJobBusy(n, env);
    if b.stage == Cancelling { assert StartNextJob(n, env) == n; }
    MaybeFinishKeeps(StartNextJob(n, env));
  }

  lemma ConcludeKeepsConsent(b: Batch, i: nat, s: Source)
    requires Ready(b, i, {i}) && s == b.sources[i].(result := s.result) && s.result.Some?
    ensures var n := Edit(b, i, s); Placed(n, {}) && Linked(n) && Consented(n) && SameSetting(b, n)
  {
    ReadyIsNowhere(b, i, {i});
    ConcludeKeeps(b, i, s, {i});
    assert {i} - {i} == {};
  }

  /** The ticket's source is out of every place, its datasets are in the ledger. */
  lemma ReleasedIsReady(b: Batch, t: nat, ids: seq<nat>)
    requires Active(b) && t in b.tickets
    ensures var n := Report(Release(b, t), ids); Ready(n, b.tickets[t], {b.tickets[t]}) && UnderWay(n)
  {
    ReleasePlaces(b, t);
    var r := Release(b, t);
    assert UnderWay(r) && Consented(r);
    ReportKeeps(r, ids);
    var n := Report(r, ids);
    forall j | 0 <= j < |n.sources| ensures Places(n, j) == Due(j, {b.tickets[t]}) {
      assert Places(r, j) == Due(j, {b.tickets[t]});
    }
  }

  lemma LoadFinishedKeeps(b: Batch, t: nat, outcome: LoadOutcome, ids: seq<nat>, env: Env)
    requires Active(b) && !Drained(b)
    ensures var n := OnLoadFinished(b, t, outcome, ids, env);
      Inv(n) && n.before == b.before && |n.sources| == |b.sources|
  {
    if t in b.tickets {
      var i := b.tickets[t];
      var n := Report(Release(b, t), ids);
      ReleasedIsReady(b, t, ids);
      assert {i} - {i} == {};
      if outcome == LoadFailed && n.sources[i].hostCacheHit {
        FailureKeeps(n, i, env, {i});
        FailureBusy(n, i, env);
        MaybeFinishKeeps(HandleCacheLoadFailure(n, i, env));
      } else {
        var o := match outcome case LoadLoaded => CacheHit case LoadCancelled => Cancelled case LoadFailed => Failed;
        ConcludeKeepsConsent(n, i, n.sources[i].(result := Some(o)));
        MaybeFinishKeeps(SetResult(n, i, o));
      }
    }
  }

  /** The quarantine path leaves no job waiting behind an idle job slot, and queues none outside Running. */
  lemma FailureBusy(b: Batch, i: nat, env: Env)
    requires InRange(b) && i < |b.sources| && (b.queue != [] ==> b.stage == Running && b.active.Some?)
    ensures var n := HandleCacheLoadFailure(b, i, env); n.queue != [] ==> n.stage == Running && n.active.Some?
  {
    if b.stage == Running {
      ReplanClearsHit(b.sources[i], env.refacts(i), b.config);
      ResumeBusy(Edit(b, i, Replan(b.sources[i], env.refacts(i), b.config)), i, env);
    }
  }

  lemma ResumeBusy(b: Batch, i: nat, env: Env)
    requires InRange(b) && i < |b.sources| && !b.sources[i].hostCacheHit
    requires b.stage == Running && (b.queue != [] ==> b.active.Some?)
    ensures var n := Resume(b, i, env); n.queue != [] ==> n.stage == Running && n.active.Some?
  {
    if b.sources[i].plan == Miss {
      var q := b.(queue := b.queue + [i]);
      StartNextJobBusy(q, env);
      StartNextJobStage(q, env);
    }
  }

  lemma {:induction false} StartNextJobStage(b: Batch, env: Env)
    requires InRange(b)
    ensures StartNextJob(b, env).stage == b.stage
    decreases |b.queue|
  {
    if b.stage == Running && b.active.None? && b.queue != [] {
      var i := b.queue[0];
      if !env.session(i) || !env.starts(i) {
        StartNextJobStage(SetResult(b.(queue := b.queue[1..]), i, Failed), env);
      }
    }
  }

  lemma {:induction false} CancelQueueKeeps(b: Batch)
    requires Placed(b, {}) && Linked(b) && Consented(b)
    ensures var n := CancelQueue(b);
      Placed(n, {}) && Linked(n) && Consented(n) && n.queue == [] && SameSetting(b, n) && n.active == b.active
    decreases |b.queue|
  {
    if b.queue != [] {
      var i := b.queue[0];
      var r := b.(queue := b.queue[1..]);
      TakePlaces(b, {});
      assert {} + {i} == {i};
      assert Ready(r, i, {i});
      ConcludeKeepsConsent(r, i, r.sources[i].(result := Some(Cancelled)));
      CancelQueueKeeps(SetResult(r, i, Cancelled));
    }
  }

  lemma CancelKeeps(b: Batch)
    requires Inv(b) && InRange(b)
    ensures Inv(Cancel(b))
    ensures b.stage == Running || b.stage == Cancelling ==>
      Cancel(b).before == b.before && |Cancel(b).sources| == |b.sources|
  {
    if b.stage == Running {
      var n := b.(cancelled := true, stage := Cancelling);
      forall i | 0 <= i < |n.sources| ensures Places(n, i) == Due(i, {}) { assert Places(b, i) == Due(i, {}); }
      CancelQueueKeeps(n);
      MaybeFinishKeeps(CancelQueue(n));
    } else if b.stage == Idle || b.stage == Prepared {
      CancelUnstarted(b);
    }
  }

  /** A batch cancelled before it started concludes every source and finishes at once, with nothing to roll back. */
  lemma CancelUnstarted(b: Batch)
    requires Inv(b) && (b.stage == Idle || b.stage == Prepared) && InRange(b)
    ensures Inv(Cancel(b)) && Cancel(b).stage == Finished && Cancel(b).effects == [EmitFinished]
    ensures Cancel(b).live == b.live
  {
    var n := CancelPlanned(b.(cancelled := true, stage := Cancelling));
    assert Drained(n) && !n.checkpoint;
    assert AllConcluded(n);
  }

  lemma StepKeeps(b: Batch, op: Op)
    requires Inv(b) && Enabled(b, op)
    ensures Inv(Step(b, op))
  {
    match op
    case PrepareOp(facts) => PrepareKeeps(b, facts);
    case StartOp(choice, env) => StartKeeps(b, choice, env);
    case LoadFinishedOp(t, outcome, ids, env) =>
      if t in b.tickets { LoadFinishedKeeps(b, t, outcome, ids, env); }
    case JobDatasetOp(id) => JobDatasetKeeps(b, id);
    case JobTerminalOp(outcome, env) => JobTerminalKeeps(b, outcome, env);
    case CancelOp => CancelKeeps(b);
    case OtherTicketOp => OtherTicketKeeps(b);
  }

  lemma OtherTicketKeeps(b: Batch)
    requires Inv(b)
    ensures Inv(b.(nextTicket := b.nextTicket + 1))
  {
    var n := b.(nextTicket := b.nextTicket + 1);
    if b.stage == Running || b.stage == Cancelling {
      forall i | 0 <= i < |n.sources| ensures Places(n, i) == Due(i, {}) { assert Places(b, i) == Due(i, {}); }
    }
  }

  lemma {:induction false} RunKeeps(b: Batch, ops: seq<Op>)
    requires Inv(b) && LegalRun(b, ops)
    ensures Inv(Run(b, ops))
    decreases |ops|
  {
    if ops != [] {
      StepKeeps(b, ops[0]);
      RunKeeps(Step(b, ops[0]), ops[1..]);
    }
  }

  lemma InitialRun(c: Config, ticket: nat, live: set<nat>, ops: seq<Op>)
    requires LegalRun(New(c, ticket, live), ops)
    ensures Inv(Run(New(c, ticket, live), ops))
  {
    RunKeeps(New(c, ticket, live), ops);
  }

  // ---------- Main results ----------

  /**
   In every reachable state of a running or cancelling batch each planned source is in exactly one place, and some
   child is outstanding, so the batch never waits for nothing.
   */
  lemma EverySourceInOnePlace(c: Config, ticket: nat, live: set<nat>, ops: seq<Op>, i: nat)
    requires LegalRun(New(c, ticket, live), ops)
    requires var b := Run(New(c, ticket, live), ops);
      (b.stage == Running || b.stage == Cancelling) && i < |b.sources|
    ensures var b := Run(New(c, ticket, live), ops);
      && Places(b, i) == 1
      && (b.tickets != map[] || b.active.Some?)
  {
    InitialRun(c, ticket, live, ops);
    var b := Run(New(c, ticket, live), ops);
    assert Places(b, i) == Due(i, {});
  }

  /** No import job runs or waits without the consent it needed. */
  lemma ImportsHadConsent(c: Config, ticket: nat, live: set<nat>, ops: seq<Op>, i: nat)
    requires LegalRun(New(c, ticket, live), ops)
    requires var b := Run(New(c, ticket, live), ops); (b.active == Some(i) || i in b.queue) && i < |b.sources|
    ensures var s := Run(New(c, ticket, live), ops).sources[i]; s.gated ==> s.confirmed
  {
    InitialRun(c, ticket, live, ops);
  }

  /**
   finished() is emitted at most once in any run, as the very last effect, and only when every source has concluded;
   nothing is removed or restored before that.
   */
  lemma FinishedOnceAndLast(c: Config, ticket: nat, live: set<nat>, ops: seq<Op>)
    requires LegalRun(New(c, ticket, live), ops)
    ensures var b := Run(New(c, ticket, live), ops);
      && (EmitFinished in b.effects ==>
            && b.stage == Finished && AllConcluded(b)
            && b.effects[|b.effects| - 1] == EmitFinished && EmitFinished !in b.effects[..|b.effects| - 1])
      && (b.stage == Finished && (b.before.Some? || b.cancelled) ==> EmitFinished in b.effects)
      && (b.stage != Finished ==> forall e :: e in b.effects ==> e == Checkpoint)
  {
    InitialRun(c, ticket, live, ops);
    var b := Run(New(c, ticket, live), ops);
    if b.stage == Finished {
      TraceEnds(b);
    }
  }

  lemma TraceEnds(b: Batch)
    ensures var t := Trace(b);
      && (t != [] ==> t[|t| - 1] == EmitFinished && EmitFinished !in t[..|t| - 1])
      && (b.before.Some? || b.cancelled ==> t != [])
      && (b.before.None? && !b.cancelled ==> t == [])
  {
    var t := Trace(b);
    if t != [] {
      forall k | 0 <= k < |t| - 1 ensures t[k] != EmitFinished {
        if b.before.Some? && b.cancelled && b.checkpoint && 1 <= k < 1 + |b.ledger| {
          assert t[k] == Removals(b.ledger)[k - 1];
        }
      }
    }
  }

  // ---------- Termination ----------

  /** How many child terminals source `i` can still account for. */
  function Weight(b: Batch, i: nat): nat
    requires i < |b.sources|
  {
    if b.sources[i].result.Some? then 0
    else if b.sources[i].hostCacheHit then 3
    else if Count(b.queue, i) > 0 then 2
    else 1
  }

  function Rank(b: Batch, k: nat): nat
    requires k <= |b.sources|
  {
    if k == 0 then 0 else Rank(b, k - 1) + Weight(b, k - 1)
  }

  lemma {:induction false} RankDown(b: Batch, n: Batch, k: nat)
    requires |n.sources| == |b.sources| && k <= |b.sources|
    requires forall j :: 0 <= j < k ==> Weight(n, j) <= Weight(b, j)
    ensures Rank(n, k) <= Rank(b, k)
  {
    if k > 0 { RankDown(b, n, k - 1); }
  }

  lemma {:induction false} RankLess(b: Batch, n: Batch, k: nat, i: nat)
    requires |n.sources| == |b.sources| && i < k <= |b.sources|
    requires forall j :: 0 <= j < k ==> Weight(n, j) <= Weight(b, j)
    requires Weight(n, i) < Weight(b, i)
    ensures Rank(n, k) < Rank(b, k)
  {
    if i == k - 1 { RankDown(b, n, k - 1); } else { RankLess(b, n, k - 1, i); }
  }

  lemma {:induction false} StartNextJobWeight(b: Batch, env: Env, j: nat)
    requires InRange(b) && j < |b.sources|
    ensures j < |StartNextJob(b, env).sources| && Weight(StartNextJob(b, env), j) <= Weight(b, j)
    decreases |b.queue|
  {
    if b.stage == Running && b.active.None? && b.queue != [] {
      var i := b.queue[0];
      if !env.session(i) || !env.starts(i) {
        StartNextJobWeight(SetResult(b.(queue := b.queue[1..]), i, Failed), env, j);
      }
    }
  }

  lemma {:induction false} CancelQueueWeight(b: Batch, j: nat)
    requires InRange(b) && j < |b.sources|
    ensures j < |CancelQueue(b).sources| && Weight(CancelQueue(b), j) <= Weight(b, j)
    decreases |b.queue|
  {
    if b.queue != [] {
      CancelQueueWeight(SetResult(b.(queue := b.queue[1..]), b.queue[0], Cancelled), j);
    }
  }

  /** The quarantine path costs the failed source its host-cache weight and no other source anything. */
  lemma FailureWeight(b: Batch, i: nat, env: Env, j: nat)
    requires InRange(b) && i < |b.sources| && j < |b.sources|
    ensures j < |HandleCacheLoadFailure(b, i, env).sources|
    ensures if j == i then Weight(HandleCacheLoadFailure(b, i, env), j) <= 2
            else Weight(HandleCacheLoadFailure(b, i, env), j) <= Weight(b, j)
  {
    if b.stage == Running {
      var s := Replan(b.sources[i], env.refacts(i), b.config);
      ReplanClearsHit(b.sources[i], env.refacts(i), b.config);
      ResumeWeight(Edit(b, i, s), i, env, j);
    }
  }

  lemma RequeueWeight(b: Batch, i: nat, env: Env, j: nat)
    requires InRange(b) && i < |b.sources| && j < |b.sources| && !b.sources[i].hostCacheHit
    ensures var n := StartNextJob(b.(queue := b.queue + [i]), env);
      j < |n.sources| && Weight(n, j) <= if j == i then 2 else Weight(b, j)
  {
    CountAppend(b.queue, i, j);
    StartNextJobWeight(b.(queue := b.queue + [i]), env, j);
  }

  lemma ResumeWeight(b: Batch, i: nat, env: Env, j: nat)
    requires InRange(b) && i < |b.sources| && j < |b.sources| && !b.sources[i].hostCacheHit
    ensures j < |Resume(b, i, env).sources|
    ensures if j == i then Weight(Resume(b, i, env), j) <= 2 else Weight(Resume(b, i, env), j) <= Weight(b, j)
  {
    if b.sources[i].plan == Miss {
      RequeueWeight(b, i, env, j);
    } else if b.sources[i].plan == Hit {
      var n := StartHitLoad(b, i, env);
      assert n.queue == b.queue && |n.sources| == |b.sources| && (j != i ==> n.sources[j] == b.sources[j]);
    }
  }

  /** The operation is the terminal of a child of this batch. */
  predicate ChildTerminal(b: Batch, op: Op) {
    (op.LoadFinishedOp? && op.ticket in b.tickets) || (op.JobTerminalOp? && b.active.Some?)
  }

  lemma MaybeFinishWeight(b: Batch, j: nat)
    requires j < |b.sources|
    ensures j < |MaybeFinish(b).sources| && Weight(MaybeFinish(b), j) == Weight(b, j)
  {
  }

  lemma QuarantineWeight(b: Batch, op: Op, j: nat)
    requires Active(b) && op.LoadFinishedOp? && op.ticket in b.tickets && j < |b.sources|
    requires op.outcome == LoadFailed && b.sources[b.tickets[op.ticket]].hostCacheHit
    ensures j < |Step(b, op).sources| && Weight(Step(b, op), j) <= Weight(b, j)
    ensures j == b.tickets[op.ticket] ==> Weight(Step(b, op), j) < Weight(b, j)
  {
    var i := b.tickets[op.ticket];
    var n := Report(Release(b, op.ticket), op.ids);
    assert Places(b, i) == Due(i, {});
    assert Weight(b, i) == 3 && (j != i ==> Weight(n, j) == Weight(b, j));
    FailureWeight(n, i, op.env, j);
    FailureShape(n, i, op.env);
    MaybeFinishWeight(HandleCacheLoadFailure(n, i, op.env), j);
  }

  lemma LoadFinishedWeight(b: Batch, op: Op, j: nat)
    requires Active(b) && op.LoadFinishedOp? && op.ticket in b.tickets && j < |b.sources|
    ensures j < |Step(b, op).sources| && Weight(Step(b, op), j) <= Weight(b, j)
    ensures j == b.tickets[op.ticket] ==> Weight(Step(b, op), j) < Weight(b, j)
  {
    var i := b.tickets[op.ticket];
    if op.outcome == LoadFailed && b.sources[i].hostCacheHit {
      QuarantineWeight(b, op, j);
    } else {
      ConcludedWeight(b, op.ticket, op.outcome, op.ids, op.env, j);
    }
  }

  lemma TicketedWeighs(b: Batch, t: nat)
    requires Active(b) && t in b.tickets
    ensures b.tickets[t] < |b.sources| && Weight(b, b.tickets[t]) > 0
  {
    assert Places(b, b.tickets[t]) == Due(b.tickets[t], {});
  }

  lemma HeardWeight(b: Batch, t: nat, ids: seq<nat>, j: nat)
    requires t in b.tickets && b.tickets[t] < |b.sources| && j < |b.sources|
    ensures var n := Report(Release(b, t), ids); |n.sources| == |b.sources| && Weight(n, j) == Weight(b, j)
  {
  }

  lemma ResultWeight(b: Batch, i: nat, o: Outcome, j: nat)
    requires i < |b.sources| && j < |b.sources|
    ensures Weight(SetResult(b, i, o), j) == if j == i then 0 else Weight(b, j)
  {
  }

  /** A load that ends its source takes the source's whole weight and leaves the others theirs. */
  lemma ConcludedWeight(b: Batch, t: nat, outcome: LoadOutcome, ids: seq<nat>, env: Env, j: nat)
    requires Active(b) && t in b.tickets && j < |b.sources|
    requires outcome == LoadFailed ==> !b.sources[b.tickets[t]].hostCacheHit
    ensures var n := OnLoadFinished(b, t, outcome, ids, env);
      j < |n.sources| && Weight(n, j) == if j == b.tickets[t] then 0 else Weight(b, j)
    ensures Weight(b, b.tickets[t]) > 0
  {
    TicketedWeighs(b, t);
    HeardWeight(b, t, ids, j);
    var n := Report(Release(b, t), ids);
    var o := match outcome case LoadLoaded => CacheHit case LoadCancelled => Cancelled case LoadFailed => Failed;
    ResultWeight(n, b.tickets[t], o, j);
    MaybeFinishWeight(SetResult(n, b.tickets[t], o), j);
  }

  lemma JobTerminalWeight(b: Batch, op: Op, j: nat)
    requires Active(b) && op.JobTerminalOp? && b.active.Some? && j < |b.sources|
    ensures j < |Step(b, op).sources| && Weight(Step(b, op), j) <= Weight(b, j)
    ensures j == b.active.value ==> Weight(Step(b, op), j) < Weight(b, j)
  {
    var i := b.active.value;
    assert Places(b, i) == Due(i, {});
    var n := SetResult(b.(active := None), i, JobResult(op.jobOutcome));
    StartNextJobWeight(n, op.env, j);
    StartNextJobShape(n, op.env);
    MaybeFinishWeight(StartNextJob(n, op.env), j);
  }

  lemma CancelWeight(b: Batch, j: nat)
    requires Active(b) && j < |b.sources|
    ensures j < |Cancel(b).sources| && Weight(Cancel(b), j) <= Weight(b, j)
  {
    if b.stage == Running {
      var n := b.(cancelled := true, stage := Cancelling);
      CancelQueueWeight(n, j);
      MaybeFinishWeight(CancelQueue(n), j);
    }
  }

  lemma StepSetting(b: Batch, op: Op)
    requires Inv(b) && Active(b) && Enabled(b, op)
    ensures |Step(b, op).sources| == |b.sources| && Step(b, op).before == b.before
  {
    match op
    case LoadFinishedOp(t, outcome, ids, env) => LoadFinishedKeeps(b, t, outcome, ids, env);
    case JobTerminalOp(outcome, env) => JobTerminalKeeps(b, outcome, env);
    case CancelOp => CancelKeeps(b);
    case PrepareOp(_) =>
    case StartOp(_, _) =>
    case JobDatasetOp(_) =>
    case OtherTicketOp =>
  }

  /** Each child terminal brings an active batch closer to its end, and nothing sets it back. */
  lemma StepRank(b: Batch, op: Op)
    requires Inv(b) && Active(b) && Enabled(b, op)
    ensures |Step(b, op).sources| == |b.sources|
    ensures Rank(Step(b, op), |b.sources|) + One(ChildTerminal(b, op)) <= Rank(b, |b.sources|)
  {
    var n := Step(b, op);
    var size := |b.sources|;
    StepSetting(b, op);
    if op.LoadFinishedOp? && op.ticket in b.tickets {
      forall j | 0 <= j < size ensures Weight(n, j) <= Weight(b, j) { LoadFinishedWeight(b, op, j); }
      LoadFinishedWeight(b, op, b.tickets[op.ticket]);
      RankLess(b, n, size, b.tickets[op.ticket]);
    } else if op.JobTerminalOp? {
      forall j | 0 <= j < size ensures Weight(n, j) <= Weight(b, j) { JobTerminalWeight(b, op, j); }
      JobTerminalWeight(b, op, b.active.value);
      RankLess(b, n, size, b.active.value);
    } else if op.CancelOp? {
      forall j | 0 <= j < size ensures Weight(n, j) <= Weight(b, j) { CancelWeight(b, j); }
      RankDown(b, n, size);
    } else {
      RankDown(b, n, size);
    }
  }

  function ChildTerminals(b: Batch, ops: seq<Op>): nat
    requires LegalRun(b, ops)
    decreases |ops|
  {
    if ops == [] then 0 else One(ChildTerminal(b, ops[0])) + ChildTerminals(Step(b, ops[0]), ops[1..])
  }

  /** A finished batch hears no child any more. */
  lemma {:induction false} FinishedStays(b: Batch, ops: seq<Op>)
    requires Inv(b) && b.stage == Finished && LegalRun(b, ops)
    ensures Run(b, ops).stage == Finished && ChildTerminals(b, ops) == 0
    decreases |ops|
  {
    if ops != [] {
      StepKeeps(b, ops[0]);
      FinishedStays(Step(b, ops[0]), ops[1..]);
    }
  }

  lemma {:induction false} SomethingWeighs(b: Batch, k: nat, i: nat)
    requires i < k <= |b.sources| && Weight(b, i) > 0
    ensures Rank(b, k) > 0
  {
    if i < k - 1 { SomethingWeighs(b, k - 1, i); }
  }

  /**
   A batch under way ends: after as many child terminals as its rank it has finished, replans included, whatever else
   happens in between.
   */
  lemma {:induction false} BatchTerminates(b: Batch, ops: seq<Op>)
    requires Inv(b) && Active(b) && LegalRun(b, ops)
    ensures ChildTerminals(b, ops) <= Rank(b, |b.sources|)
    ensures ChildTerminals(b, ops) == Rank(b, |b.sources|) ==> Run(b, ops).stage == Finished
    decreases |ops|
  {
    if ops == [] {
      var i := if b.tickets != map[] then var t :| t in b.tickets; b.tickets[t] else b.active.value;
      assert Places(b, i) == Due(i, {});
      SomethingWeighs(b, |b.sources|, i);
    } else {
      var n := Step(b, ops[0]);
      StepKeeps(b, ops[0]);
      StepRank(b, ops[0]);
      if n.stage == Finished {
        FinishedStays(n, ops[1..]);
      } else {
        StepStaysActive(b, ops[0]);
        BatchTerminates(n, ops[1..]);
      }
    }
  }

  lemma StepStaysActive(b: Batch, op: Op)
    requires Inv(b) && Active(b) && Enabled(b, op) && Step(b, op).stage != Finished
    ensures Active(Step(b, op))
  {
    StepKeeps(b, op);
    StepSetting(b, op);
  }

  // ---------- What an operation leaves ----------

  /** Either a child of the batch is outstanding, or the batch is over and every source of a started one has concluded. */
  ghost predicate Settled(b: Batch) {
    if b.stage == Finished then b.before.Some? || b.cancelled ==> AllConcluded(b)
    else (b.stage == Running || b.stage == Cancelling) && (b.tickets != map[] || b.active.Some?)
  }

  lemma InvSettles(b: Batch)
    requires Inv(b) && b.stage != Idle && b.stage != Prepared
    ensures Settled(b)
  {
  }

  /** Starting, cancelling and every child's terminal leave the batch waiting for a child or over. */
  lemma StepSettles(b: Batch, op: Op)
    requires Inv(b) && Enabled(b, op) && (ChildTerminal(b, op) || op.StartOp? || op.CancelOp?)
    ensures Inv(Step(b, op)) && Settled(Step(b, op))
  {
    StepKeeps(b, op);
    if ChildTerminal(b, op) {
      ChildMeansActive(b, op);
      if Step(b, op).stage != Finished { StepStaysActive(b, op); }
    } else if op.StartOp? {
      StartLeavesPlanning(b, op.choice, op.env);
    } else {
      CancelLeavesPlanning(b);
    }
    InvSettles(Step(b, op));
  }

  lemma ChildMeansActive(b: Batch, op: Op)
    requires Inv(b) && ChildTerminal(b, op)
    ensures Active(b)
  {
  }

  lemma CancelLeavesPlanning(b: Batch)
    requires Inv(b) && InRange(b)
    ensures Cancel(b).stage == Finished || Cancel(b).stage == Cancelling
  {
    if b.stage == Running {
      var n := b.(cancelled := true, stage := Cancelling);
      forall i | 0 <= i < |n.sources| ensures Places(n, i) == Due(i, {}) { assert Places(b, i) == Due(i, {}); }
      CancelQueueKeeps(n);
    }
  }

  lemma StartLeavesPlanning(b: Batch, choice: Choice, env: Env)
    requires Inv(b) && b.stage == Prepared && InRange(b)
    ensures Start(b, choice, env).stage != Idle && Start(b, choice, env).stage != Prepared
  {
    if !Declined(b, choice) && HasPendingWork(Consent(b, choice)) {
      var s := Started(Consent(b, choice));
      ConsentAnswers(b, choice);
      PlannedIsPlaced(s);
      LaunchKeeps(s, 0, env);
      StartNextJobKeeps(Launch(s, 0, env), env, {});
    }
  }
}
