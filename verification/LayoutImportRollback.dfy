/**
 What a cancelled import batch leaves in the session, in terms of what its children reported, and which tickets an
 operation of the batch can add.
 */
module LayoutImportRollback {
  import opened Basics
  import opened LayoutImport
  import opened LayoutImportSafety
  import opened LayoutImportTheorems

  // ---------- What one operation leaves alone ----------

  /** Only the sources, their places and the loader's counter move, and every new ticket is one of the newest. */
  predicate Grows(b: Batch, n: Batch) {
    && SameSetting(b, n) && b.nextTicket <= n.nextTicket
    && forall t :: t in n.tickets ==> t in b.tickets || b.nextTicket < t <= n.nextTicket
  }

  lemma {:induction false} StartNextJobGrows(b: Batch, env: Env)
    requires InRange(b)
    ensures Grows(b, StartNextJob(b, env)) && StartNextJob(b, env).tickets == b.tickets
    decreases |b.queue|
  {
    if b.stage == Running && b.active.None? && b.queue != [] {
      var i := b.queue[0];
      if !env.session(i) || !env.starts(i) {
        StartNextJobGrows(SetResult(b.(queue := b.queue[1..]), i, Failed), env);
      }
    }
  }

  lemma StartHitLoadGrows(b: Batch, i: nat, env: Env)
    requires InRange(b) && i < |b.sources|
    ensures Grows(b, StartHitLoad(b, i, env))
    decreases if b.sources[i].hostCacheHit then 3 else 0
  {
    if !env.accepts(i, b.sources[i].hostCacheHit) && b.sources[i].hostCacheHit {
      FailureGrows(b, i, env);
    }
  }

  lemma FailureGrows(b: Batch, i: nat, env: Env)
    requires InRange(b) && i < |b.sources|
    ensures Grows(b, HandleCacheLoadFailure(b, i, env))
    decreases 2
  {
    if b.stage == Running {
      ReplanClearsHit(b.sources[i], env.refacts(i), b.config);
      ResumeGrows(Edit(b, i, Replan(b.sources[i], env.refacts(i), b.config)), i, env);
    }
  }

  lemma ResumeGrows(b: Batch, i: nat, env: Env)
    requires InRange(b) && i < |b.sources| && !b.sources[i].hostCacheHit
    ensures Grows(b, Resume(b, i, env))
    decreases 1
  {
    if b.sources[i].plan == Hit {
      StartHitLoadGrows(b, i, env);
    } else if b.sources[i].plan == Miss {
      StartNextJobGrows(b.(queue := b.queue + [i]), env);
    }
  }

  lemma {:induction false} LaunchGrows(b: Batch, k: nat, env: Env)
    requires InRange(b) && k <= |b.sources|
    ensures Grows(b, Launch(b, k, env))
    decreases |b.sources| - k
  {
    if k < |b.sources| {
      StartHitLoadGrows(b, k, env);
      StartHitLoadShape(b, k, env);
      LaunchGrows(if b.sources[k].plan == Hit then StartHitLoad(b, k, env)
                  else if b.sources[k].plan == Miss then b.(queue := b.queue + [k])
                  else b, k + 1, env);
    }
  }

  lemma {:induction false} CancelQueueGrows(b: Batch)
    requires InRange(b)
    ensures Grows(b, CancelQueue(b))
    decreases |b.queue|
  {
    if b.queue != [] {
      CancelQueueGrows(SetResult(b.(queue := b.queue[1..]), b.queue[0], Cancelled));
    }
  }

  // ---------- What the children report ----------

  /** The datasets a child of the batch reports with this operation. */
  function Heard(b: Batch, op: Op): seq<nat> {
    if op.LoadFinishedOp? && op.ticket in b.tickets then op.ids
    else if op.JobDatasetOp? then [op.id]
    else []
  }

  /** Everything the batch's children report over a run. */
  function Reported(b: Batch, ops: seq<Op>): seq<nat>
    requires LegalRun(b, ops)
    decreases |ops|
  {
    if ops == [] then [] else Heard(b, ops[0]) + Reported(Step(b, ops[0]), ops[1..])
  }

  /** The session's datasets when start() ran, or now while it has not. */
  function Session(b: Batch): set<nat> {
    if b.before.Some? then b.before.value else b.live
  }

  /** What each operation does to the ledger, the starting session and the tickets. */
  ghost predicate Framed(b: Batch, op: Op, n: Batch) {
    && n.ledger == b.ledger + Heard(b, op)
    && Session(n) == Session(b)
    && n.config == b.config
    && (forall t :: t in n.tickets ==> t in b.tickets || b.nextTicket < t <= n.nextTicket)
    && b.nextTicket <= n.nextTicket
  }

  lemma MaybeFinishFrame(b: Batch)
    ensures var n := MaybeFinish(b);
      && n.ledger == b.ledger && n.before == b.before && n.config == b.config && n.tickets == b.tickets
      && n.nextTicket == b.nextTicket && (b.before.None? && !b.checkpoint ==> n.live == b.live)
  {
  }

  lemma StartFrame(b: Batch, choice: Choice, env: Env)
    requires Inv(b) && b.stage == Prepared && InRange(b)
    ensures Framed(b, StartOp(choice, env), Start(b, choice, env))
  {
    if !Declined(b, choice) && HasPendingWork(Consent(b, choice)) {
      var s := Started(Consent(b, choice));
      LaunchGrows(s, 0, env);
      LaunchShape(s, 0, env);
      StartNextJobGrows(Launch(s, 0, env), env);
      MaybeFinishFrame(StartNextJob(Launch(s, 0, env), env));
    }
  }

  /** The batch once the load of source `i` has been reported. */
  function AfterLoad(n: Batch, i: nat, outcome: LoadOutcome, env: Env): Batch
    requires InRange(n) && i < |n.sources|
  {
    match outcome
    case LoadLoaded => SetResult(n, i, CacheHit)
    case LoadCancelled => SetResult(n, i, Cancelled)
    case LoadFailed => if n.sources[i].hostCacheHit then HandleCacheLoadFailure(n, i, env) else SetResult(n, i, Failed)
  }

  lemma AfterLoadGrows(n: Batch, i: nat, outcome: LoadOutcome, env: Env)
    requires InRange(n) && i < |n.sources|
    ensures Grows(n, AfterLoad(n, i, outcome, env))
  {
    FailureGrows(n, i, env);
  }

  lemma LoadFinishedFrame(b: Batch, t: nat, outcome: LoadOutcome, ids: seq<nat>, env: Env)
    requires InRange(b) && t in b.tickets && b.before.Some?
    ensures var n := OnLoadFinished(b, t, outcome, ids, env);
      && Framed(b, LoadFinishedOp(t, outcome, ids, env), n)
      && (t in n.tickets ==> t > b.nextTicket)
  {
    var i := b.tickets[t];
    var n := Report(Release(b, t), ids);
    var m := AfterLoad(n, i, outcome, env);
    AfterLoadGrows(n, i, outcome, env);
    assert OnLoadFinished(b, t, outcome, ids, env) == MaybeFinish(m);
    MaybeFinishFrame(m);
  }

  lemma JobTerminalFrame(b: Batch, outcome: JobOutcome, env: Env)
    requires Inv(b) && b.active.Some? && InRange(b)
    ensures Framed(b, JobTerminalOp(outcome, env), OnJobTerminal(b, outcome, env))
  {
    var n := SetResult(b.(active := None), b.active.value, JobResult(outcome));
    StartNextJobGrows(n, env);
    MaybeFinishFrame(StartNextJob(n, env));
  }

  lemma CancelFrame(b: Batch)
    requires Inv(b) && InRange(b)
    ensures Framed(b, CancelOp, Cancel(b))
  {
    if b.stage != Finished && b.stage != Cancelling {
      var n := b.(cancelled := true, stage := Cancelling);
      if b.stage == Running {
        CancelQueueGrows(n);
        MaybeFinishFrame(CancelQueue(n));
      } else {
        MaybeFinishFrame(CancelPlanned(n));
      }
    }
  }

  lemma StepFrame(b: Batch, op: Op)
    requires Inv(b) && Enabled(b, op)
    ensures Framed(b, op, Step(b, op))
  {
    match op
    case StartOp(choice, env) => StartFrame(b, choice, env);
    case LoadFinishedOp(t, outcome, ids, env) =>
      if t in b.tickets { LoadFinishedFrame(b, t, outcome, ids, env); }
    case JobTerminalOp(outcome, env) => JobTerminalFrame(b, outcome, env);
    case CancelOp => CancelFrame(b);
    case PrepareOp(_) =>
    case JobDatasetOp(_) =>
    case OtherTicketOp =>
  }

  lemma {:induction false} LedgerIsReported(b: Batch, ops: seq<Op>)
    requires Inv(b) && LegalRun(b, ops)
    ensures Run(b, ops).ledger == b.ledger + Reported(b, ops)
    ensures Session(Run(b, ops)) == Session(b) && Run(b, ops).config == b.config
    decreases |ops|
  {
    if ops != [] {
      var n := Step(b, ops[0]);
      StepFrame(b, ops[0]);
      StepKeeps(b, ops[0]);
      LedgerIsReported(n, ops[1..]);
      Regroup(b.ledger, Heard(b, ops[0]), Reported(n, ops[1..]));
    } else {
      assert b.ledger + [] == b.ledger;
    }
  }

  lemma Regroup(a: seq<nat>, b: seq<nat>, c: seq<nat>)
    ensures a + b + c == a + (b + c)
  {
  }

  // ---------- Rollback ----------

  /** None of the batch's children reports a dataset that was in the session before. */
  predicate ReportsFresh(c: Config, ticket: nat, live: set<nat>, ops: seq<Op>)
    requires LegalRun(New(c, ticket, live), ops)
  {
    forall k :: 0 <= k < |Reported(New(c, ticket, live), ops)| ==> Reported(New(c, ticket, live), ops)[k] !in live
  }

  /**
   A started batch that ends cancelled under a checkpoint removes exactly what its children reported, in order, and
   only then restores the workspace. The session then has the datasets it had before the batch if and only if no child
   reported one of those.
   */
  lemma CancelledRollsBack(c: Config, ticket: nat, live: set<nat>, ops: seq<Op>)
    requires LegalRun(New(c, ticket, live), ops) && c.checkpoints
    requires var b := Run(New(c, ticket, live), ops); b.stage == Finished && b.cancelled && b.before.Some?
    ensures var b := Run(New(c, ticket, live), ops);
      && b.effects == [Checkpoint] + Removals(Reported(New(c, ticket, live), ops)) + [Restore] + [EmitFinished]
      && b.live <= live
      && (b.live == live <==> ReportsFresh(c, ticket, live, ops))
  {
    var first := New(c, ticket, live);
    InitialRun(c, ticket, live, ops);
    LedgerIsReported(first, ops);
    var b := Run(first, ops);
    assert b.ledger == Reported(first, ops) && b.live == live - Ids(b.ledger);
    if b.live == live {
      forall k | 0 <= k < |b.ledger| ensures b.ledger[k] !in live { assert b.ledger[k] in Ids(b.ledger); }
    } else {
      var x :| x in live && x in Ids(b.ledger);
      var k :| 0 <= k < |b.ledger| && b.ledger[k] == x;
    }
  }

  /** Without a checkpoint hook a cancelled batch leaves everything its children reported in the session. */
  lemma NoCheckpointNoRollback(c: Config, ticket: nat, live: set<nat>, ops: seq<Op>)
    requires LegalRun(New(c, ticket, live), ops) && !c.checkpoints
    requires var b := Run(New(c, ticket, live), ops); b.stage == Finished && b.cancelled && b.before.Some?
    ensures var b := Run(New(c, ticket, live), ops);
      b.effects == [EmitFinished] && b.live == live + Ids(Reported(New(c, ticket, live), ops))
  {
    InitialRun(c, ticket, live, ops);
    LedgerIsReported(New(c, ticket, live), ops);
    assert [] + [EmitFinished] == [EmitFinished];
  }

  // ---------- Two runs ----------

  /** A source whose record is invalid and whose saved file is there. */
  const FOUND := Facts(false, Absent, false, NoAnswer, false, true)

  const PLANNED := UNPLANNED.(plan := Hit, fallback := true)

  const WILLING := Env((i, cached) => true, i => FOUND, i => false, i => false)

  lemma RunCons(b: Batch, op: Op, rest: seq<Op>)
    requires Enabled(b, op) && LegalRun(Step(b, op), rest)
    ensures LegalRun(b, [op] + rest) && Run(b, [op] + rest) == Run(Step(b, op), rest)
    ensures Reported(b, [op] + rest) == Heard(b, op) + Reported(Step(b, op), rest)
  {
    assert ([op] + rest)[1..] == rest;
  }

  function Conf(checkpoints: bool): Config {
    Config(false, 0, checkpoints)
  }

  function BothPlanned(checkpoints: bool, live: set<nat>): Batch {
    New(Conf(checkpoints), 0, live).(stage := Prepared, sources := [PLANNED, PLANNED])
  }

  lemma BothArePlanned(checkpoints: bool, live: set<nat>)
    ensures Step(New(Conf(checkpoints), 0, live), PrepareOp([FOUND, FOUND])) == BothPlanned(checkpoints, live)
  {
    var n := Prepare(New(Conf(checkpoints), 0, live), [FOUND, FOUND]);
    assert n.sources == [PLANNED, PLANNED];
  }

  function BothLoading(checkpoints: bool, live: set<nat>): Batch {
    Started(BothPlanned(checkpoints, live)).(
      sources := [PLANNED.(ticket := Some(1)), PLANNED.(ticket := Some(2))],
      tickets := map[1 := 0, 2 := 1], nextTicket := 2)
  }

  lemma BothLoad(checkpoints: bool, live: set<nat>)
    ensures Step(BothPlanned(checkpoints, live), StartOp(TrustAndImport, WILLING)) == BothLoading(checkpoints, live)
  {
    var b := BothPlanned(checkpoints, live);
    assert !Asks(PLANNED) && Unfinished(b.sources[0]);
    assert Consent(b, TrustAndImport) == b;
    var s := Started(b);
    var one := Await(s, 0);
    assert one.sources == [PLANNED.(ticket := Some(1)), PLANNED];
    var two := Await(one, 1);
    assert two.sources == [PLANNED.(ticket := Some(1)), PLANNED.(ticket := Some(2))];
    assert two == BothLoading(checkpoints, live);
    assert Launch(one, 1, WILLING) == Launch(two, 2, WILLING) == two;
    assert Launch(s, 0, WILLING) == Launch(one, 1, WILLING);
    assert 1 in two.tickets && !Asks(b.sources[1]);
    assert MaybeFinish(StartNextJob(two, WILLING)) == two;
  }

  function OneLoaded(checkpoints: bool, live: set<nat>, id: nat): Batch {
    BothLoading(checkpoints, live).(
      sources := [PLANNED.(result := Some(CacheHit)), PLANNED.(ticket := Some(2))],
      tickets := map[2 := 1], produced := [id], ledger := [id], live := live + {id})
  }

  lemma OneLoads(checkpoints: bool, live: set<nat>, id: nat)
    ensures Step(BothLoading(checkpoints, live), LoadFinishedOp(1, LoadLoaded, [id], WILLING))
         == OneLoaded(checkpoints, live, id)
  {
    var b := BothLoading(checkpoints, live);
    var r := Release(b, 1);
    assert r.tickets == map[2 := 1] && r.sources == [PLANNED, PLANNED.(ticket := Some(2))];
    var n := SetResult(Report(r, [id]), 0, CacheHit);
    assert n.sources == [PLANNED.(result := Some(CacheHit)), PLANNED.(ticket := Some(2))];
    assert Ids([id]) == {id} && [] + [id] == [id];
    assert n == OneLoaded(checkpoints, live, id);
    assert 2 in n.tickets;
  }

  /** The run ends cancelled; with a checkpoint `id` is gone, without one it is there. */
  predicate Leaves(b: Batch, ops: seq<Op>, reported: seq<nat>, checkpoints: bool, live: set<nat>, id: nat) {
    LegalRun(b, ops) && Reported(b, ops) == reported
    && var n := Run(b, ops);
       n.stage == Finished && n.cancelled && n.live == if checkpoints then live - {id} else live + {id}
  }

  lemma LeavesCons(
    b: Batch, op: Op, rest: seq<Op>, reported: seq<nat>, all: seq<nat>, checkpoints: bool, live: set<nat>, id: nat)
    requires Enabled(b, op) && Leaves(Step(b, op), rest, reported, checkpoints, live, id)
    requires all == Heard(b, op) + reported
    ensures Leaves(b, [op] + rest, all, checkpoints, live, id)
  {
    RunCons(b, op, rest);
  }

  function OneCancelled(checkpoints: bool, live: set<nat>, id: nat): Batch {
    OneLoaded(checkpoints, live, id).(cancelled := true, stage := Cancelling)
  }

  lemma CancelWaits(checkpoints: bool, live: set<nat>, id: nat)
    ensures Step(OneLoaded(checkpoints, live, id), CancelOp) == OneCancelled(checkpoints, live, id)
  {
    assert 2 in OneLoaded(checkpoints, live, id).tickets;
  }

  const LAST := LoadFinishedOp(2, LoadCancelled, [], WILLING)

  lemma LastIsReleased(checkpoints: bool, live: set<nat>, id: nat)
    ensures var n := OneCancelled(checkpoints, live, id).(
        tickets := map[], sources := [PLANNED.(result := Some(CacheHit)), PLANNED.(result := Some(Cancelled))]);
      Step(OneCancelled(checkpoints, live, id), LAST) == MaybeFinish(n) && Drained(n)
  {
    var c := OneCancelled(checkpoints, live, id);
    var r := Release(c, 2);
    assert r.tickets == map[] && r.sources == [PLANNED.(result := Some(CacheHit)), PLANNED];
    assert Report(r, []) == r by { assert [id] + [] == [id]; }
    var n := SetResult(r, 1, Cancelled);
    assert n.sources == [PLANNED.(result := Some(CacheHit)), PLANNED.(result := Some(Cancelled))];
  }

  lemma LastLoadEnds(checkpoints: bool, live: set<nat>, id: nat)
    ensures Leaves(OneCancelled(checkpoints, live, id), [LAST] + [], [], checkpoints, live, id)
  {
    LastIsReleased(checkpoints, live, id);
    var n := Step(OneCancelled(checkpoints, live, id), LAST);
    assert n.live == if checkpoints then live - {id} else live + {id} by { assert Ids([id]) == {id}; }
    assert Leaves(n, [], [], checkpoints, live, id);
    LeavesCons(OneCancelled(checkpoints, live, id), LAST, [], [], [], checkpoints, live, id);
  }

  function FromLoaded(): seq<Op> {
    [CancelOp] + ([LAST] + [])
  }

  function FromLoading(id: nat): seq<Op> {
    [LoadFinishedOp(1, LoadLoaded, [id], WILLING)] + FromLoaded()
  }

  /** The first load reports `id`, the user cancels while the second is out, and that one ends cancelled. */
  function CancelledOps(id: nat): seq<Op> {
    [PrepareOp([FOUND, FOUND])] + ([StartOp(TrustAndImport, WILLING)] + FromLoading(id))
  }

  lemma LoadedLeaves(checkpoints: bool, live: set<nat>, id: nat)
    ensures Leaves(OneLoaded(checkpoints, live, id), FromLoaded(), [], checkpoints, live, id)
  {
    LastLoadEnds(checkpoints, live, id);
    CancelWaits(checkpoints, live, id);
    LeavesCons(OneLoaded(checkpoints, live, id), CancelOp, [LAST] + [], [], [], checkpoints, live, id);
  }

  lemma LoadingLeaves(checkpoints: bool, live: set<nat>, id: nat)
    ensures Leaves(BothLoading(checkpoints, live), FromLoading(id), [id], checkpoints, live, id)
  {
    LoadedLeaves(checkpoints, live, id);
    OneLoads(checkpoints, live, id);
    LeavesCons(BothLoading(checkpoints, live), LoadFinishedOp(1, LoadLoaded, [id], WILLING), FromLoaded(), [], [id],
               checkpoints, live, id);
  }

  lemma CancelledRun(checkpoints: bool, live: set<nat>, id: nat)
    ensures Leaves(New(Conf(checkpoints), 0, live), CancelledOps(id), [id], checkpoints, live, id)
  {
    LoadingLeaves(checkpoints, live, id);
    BothLoad(checkpoints, live);
    var start := StartOp(TrustAndImport, WILLING);
    LeavesCons(BothPlanned(checkpoints, live), start, FromLoading(id), [id], [id], checkpoints, live, id);
    BothArePlanned(checkpoints, live);
    LeavesCons(New(Conf(checkpoints), 0, live), PrepareOp([FOUND, FOUND]), [start] + FromLoading(id), [id], [id],
               checkpoints, live, id);
  }

  /** A child that reports a dataset of the session, as a reusing load does, makes the rollback remove it. */
  lemma ReusedDatasetIsRemoved()
    ensures LegalRun(New(Conf(true), 0, {5}), CancelledOps(5))
    ensures var n := Run(New(Conf(true), 0, {5}), CancelledOps(5));
      n.stage == Finished && n.cancelled && n.live == {}
  {
    CancelledRun(true, {5}, 5);
  }

  /** Without a checkpoint hook a cancelled batch leaves a dataset behind that was not there before. */
  lemma DatasetIsLeftBehind()
    ensures LegalRun(New(Conf(false), 0, {}), CancelledOps(7))
    ensures var n := Run(New(Conf(false), 0, {}), CancelledOps(7));
      n.stage == Finished && n.cancelled && n.live == {7}
  {
    CancelledRun(false, {}, 7);
  }
}
