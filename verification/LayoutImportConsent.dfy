/**
 What the trust prompt's answer does to the sources it asked about, over whole runs: a skipped source never runs, a
 trusted one is queued, started or has failed to start. A result, once a source has it, stands.
 */
module LayoutImportConsent {
  import opened Basics
  import opened LayoutImport
  import opened LayoutImportSafety
  import opened LayoutImportTheorems

  // ---------- A source no operation reaches ----------

  /** Source `i` waits for nothing: no ticket, no queue entry, no active job. */
  ghost predicate Nowhere(b: Batch, i: nat) {
    i !in b.queue && b.active != Some(i) && forall t :: t in b.tickets ==> b.tickets[t] != i
  }

  ghost predicate Rests(b: Batch, i: nat, s: Source) {
    i < |b.sources| && b.sources[i] == s && Nowhere(b, i)
  }

  lemma {:induction false} StartNextJobRests(b: Batch, env: Env, i: nat, s: Source)
    requires InRange(b) && Rests(b, i, s)
    ensures Rests(StartNextJob(b, env), i, s)
    decreases |b.queue|
  {
    if b.stage == Running && b.active.None? && b.queue != [] {
      var j := b.queue[0];
      if !env.session(j) || !env.starts(j) {
        StartNextJobRests(SetResult(b.(queue := b.queue[1..]), j, Failed), env, i, s);
      }
    }
  }

  lemma HitRests(b: Batch, j: nat, env: Env, i: nat, s: Source)
    requires InRange(b) && j < |b.sources| && j != i && Rests(b, i, s)
    ensures Rests(StartHitLoad(b, j, env), i, s)
    decreases if b.sources[j].hostCacheHit then 3 else 0
  {
    if !env.accepts(j, b.sources[j].hostCacheHit) && b.sources[j].hostCacheHit {
      FailureRests(b, j, env, i, s);
    }
  }

  lemma FailureRests(b: Batch, j: nat, env: Env, i: nat, s: Source)
    requires InRange(b) && j < |b.sources| && j != i && Rests(b, i, s)
    ensures Rests(HandleCacheLoadFailure(b, j, env), i, s)
    decreases 2
  {
    if b.stage == Running {
      ReplanClearsHit(b.sources[j], env.refacts(j), b.config);
      ResumeRests(Edit(b, j, Replan(b.sources[j], env.refacts(j), b.config)), j, env, i, s);
    }
  }

  lemma ResumeRests(b: Batch, j: nat, env: Env, i: nat, s: Source)
    requires InRange(b) && j < |b.sources| && j != i && Rests(b, i, s) && !b.sources[j].hostCacheHit
    ensures Rests(Resume(b, j, env), i, s)
    decreases 1
  {
    if b.sources[j].plan == Hit {
      HitRests(b, j, env, i, s);
    } else if b.sources[j].plan == Miss {
      StartNextJobRests(b.(queue := b.queue + [j]), env, i, s);
    }
  }

  /** start()'s loop on source `k`. */
  function LaunchSource(b: Batch, k: nat, env: Env): Batch
    requires InRange(b) && k < |b.sources|
  {
    if b.sources[k].plan == Hit then StartHitLoad(b, k, env)
    else if b.sources[k].plan == Miss then b.(queue := b.queue + [k])
    else b
  }

  lemma {:induction false} LaunchRests(b: Batch, k: nat, env: Env, i: nat, s: Source)
    requires InRange(b) && k <= |b.sources| && Rests(b, i, s) && s.plan == Done
    ensures Rests(Launch(b, k, env), i, s)
    decreases |b.sources| - k
  {
    if k < |b.sources| {
      StartHitLoadShape(b, k, env);
      if b.sources[k].plan == Hit { HitRests(b, k, env, i, s); }
      LaunchRests(LaunchSource(b, k, env), k + 1, env, i, s);
    }
  }

  lemma {:induction false} CancelQueueRests(b: Batch, i: nat, s: Source)
    requires InRange(b) && Rests(b, i, s)
    ensures Rests(CancelQueue(b), i, s)
    decreases |b.queue|
  {
    if b.queue != [] {
      CancelQueueRests(SetResult(b.(queue := b.queue[1..]), b.queue[0], Cancelled), i, s);
    }
  }

  lemma MaybeFinishRests(b: Batch, i: nat, s: Source)
    requires Rests(b, i, s)
    ensures Rests(MaybeFinish(b), i, s)
  {
  }

  lemma StartRests(b: Batch, choice: Choice, env: Env, i: nat, s: Source)
    requires InRange(b) && Rests(b, i, s) && s.plan == Done
    ensures Rests(Start(b, choice, env), i, s)
  {
    if !Declined(b, choice) && HasPendingWork(Consent(b, choice)) {
      LaunchedRests(Started(Consent(b, choice)), env, i, s);
    }
  }

  lemma LaunchedRests(b: Batch, env: Env, i: nat, s: Source)
    requires InRange(b) && Rests(b, i, s) && s.plan == Done
    ensures InRange(Launch(b, 0, env)) && Rests(MaybeFinish(StartNextJob(Launch(b, 0, env), env)), i, s)
  {
    LaunchShape(b, 0, env);
    LaunchRests(b, 0, env, i, s);
    StartNextJobRests(Launch(b, 0, env), env, i, s);
    MaybeFinishRests(StartNextJob(Launch(b, 0, env), env), i, s);
  }

  lemma LoadFinishedRests(b: Batch, t: nat, outcome: LoadOutcome, ids: seq<nat>, env: Env, i: nat, s: Source)
    requires InRange(b) && Rests(b, i, s)
    ensures Rests(OnLoadFinished(b, t, outcome, ids, env), i, s)
  {
    if t in b.tickets {
      ReleaseRests(b, t, ids, i, s);
      HeardRests(Report(Release(b, t), ids), b.tickets[t], outcome, env, i, s);
    }
  }

  lemma ReleaseRests(b: Batch, t: nat, ids: seq<nat>, i: nat, s: Source)
    requires InRange(b) && t in b.tickets && Rests(b, i, s)
    ensures var n := Report(Release(b, t), ids); InRange(n) && Rests(n, i, s)
  {
  }

  lemma HeardRests(n: Batch, j: nat, outcome: LoadOutcome, env: Env, i: nat, s: Source)
    requires InRange(n) && j < |n.sources| && j != i && Rests(n, i, s)
    ensures var o := match outcome case LoadLoaded => CacheHit case LoadCancelled => Cancelled case LoadFailed => Failed;
      && Rests(MaybeFinish(SetResult(n, j, o)), i, s)
      && Rests(MaybeFinish(HandleCacheLoadFailure(n, j, env)), i, s)
  {
    FailureRests(n, j, env, i, s);
    MaybeFinishRests(HandleCacheLoadFailure(n, j, env), i, s);
  }

  lemma JobTerminalRests(b: Batch, outcome: JobOutcome, env: Env, i: nat, s: Source)
    requires InRange(b) && b.active.Some? && Rests(b, i, s)
    ensures Rests(OnJobTerminal(b, outcome, env), i, s)
  {
    var n := SetResult(b.(active := None), b.active.value, JobResult(outcome));
    assert Rests(n, i, s);
    StartNextJobRests(n, env, i, s);
    MaybeFinishRests(StartNextJob(n, env), i, s);
  }

  lemma CancelRests(b: Batch, i: nat, s: Source)
    requires InRange(b) && Rests(b, i, s)
    requires s.plan == Done || b.stage == Running || b.stage == Cancelling || b.stage == Finished
    ensures Rests(Cancel(b), i, s)
  {
    if b.stage != Finished && b.stage != Cancelling {
      var n := b.(cancelled := true, stage := Cancelling);
      if b.stage == Running {
        CancelQueueRests(n, i, s);
        MaybeFinishRests(CancelQueue(n), i, s);
      } else {
        MaybeFinishRests(CancelPlanned(n), i, s);
      }
    }
  }

  lemma StepRests(b: Batch, op: Op, i: nat, s: Source)
    requires Inv(b) && Enabled(b, op) && Rests(b, i, s) && (s.plan == Done || b.before.Some?)
    ensures Rests(Step(b, op), i, s)
  {
    match op
    case PrepareOp(_) =>
    case StartOp(choice, env) => StartRests(b, choice, env, i, s);
    case LoadFinishedOp(t, outcome, ids, env) => LoadFinishedRests(b, t, outcome, ids, env, i, s);
    case JobDatasetOp(_) =>
    case JobTerminalOp(outcome, env) => JobTerminalRests(b, outcome, env, i, s);
    case CancelOp => CancelRests(b, i, s);
    case OtherTicketOp =>
  }

  /** A batch that was started stays one that was started. */
  lemma StartedStays(b: Batch, op: Op)
    requires Inv(b) && Enabled(b, op) && b.before.Some?
    ensures Step(b, op).before == b.before
  {
    if Active(b) {
      StepSetting(b, op);
    }
  }

  lemma {:induction false} RunRests(b: Batch, ops: seq<Op>, i: nat, s: Source)
    requires Inv(b) && LegalRun(b, ops) && Rests(b, i, s) && (s.plan == Done || b.before.Some?)
    ensures Rests(Run(b, ops), i, s)
    decreases |ops|
  {
    if ops != [] {
      StepKeeps(b, ops[0]);
      StepRests(b, ops[0], i, s);
      if b.before.Some? { StartedStays(b, ops[0]); }
      RunRests(Step(b, ops[0]), ops[1..], i, s);
    }
  }

  lemma ConcludedIsNowhere(b: Batch, i: nat)
    requires Inv(b) && i < |b.sources| && b.sources[i].result.Some?
    ensures Nowhere(b, i)
  {
    if b.stage == Running || b.stage == Cancelling {
      assert Places(b, i) == Due(i, {});
      if i in b.queue {
        var k :| 0 <= k < |b.queue| && b.queue[k] == i;
        CountedIsThere(b.queue, k);
      }
    }
  }

  /** Once start() has launched the batch, a source's result never changes, and neither does anything else about it. */
  lemma ResultsStand(c: Config, ticket: nat, live: set<nat>, ops: seq<Op>, later: seq<Op>, i: nat)
    requires LegalRun(New(c, ticket, live), ops)
    requires var b := Run(New(c, ticket, live), ops);
      b.before.Some? && i < |b.sources| && b.sources[i].result.Some? && LegalRun(b, later)
    ensures var b := Run(New(c, ticket, live), ops);
      i < |Run(b, later).sources| && Run(b, later).sources[i] == b.sources[i]
  {
    InitialRun(c, ticket, live, ops);
    var b := Run(New(c, ticket, live), ops);
    ConcludedIsNowhere(b, i);
    RunRests(b, later, i, b.sources[i]);
  }

  // ---------- Which result an operation gives ----------

  /** The terminal of the active job decides its source's result. */
  lemma JobResultIs(b: Batch, outcome: JobOutcome, env: Env)
    requires Inv(b) && InRange(b) && b.active.Some?
    ensures var i, n := b.active.value, OnJobTerminal(b, outcome, env);
      && i < |n.sources| && n.sources[i].result.Some?
      && (n.sources[i].result.value == Imported <==> outcome == JobPromoted || outcome == JobEager)
      && (n.sources[i].result.value == Cancelled <==> outcome == JobCancelled)
      && (n.sources[i].result.value == Failed <==> outcome == JobFailed)
  {
    var i := b.active.value;
    var n := SetResult(b.(active := None), i, JobResult(outcome));
    ActiveIsNotQueued(b);
    assert Rests(n, i, n.sources[i]);
    StartNextJobRests(n, env, i, n.sources[i]);
    MaybeFinishRests(StartNextJob(n, env), i, n.sources[i]);
  }

  lemma ActiveIsNotQueued(b: Batch)
    requires Inv(b) && b.active.Some?
    ensures b.active.value < |b.sources| && b.active.value !in b.queue
    ensures forall t :: t in b.tickets ==> b.tickets[t] != b.active.value
  {
    var i := b.active.value;
    assert Places(b, i) == Due(i, {});
    if i in b.queue {
      var k :| 0 <= k < |b.queue| && b.queue[k] == i;
      CountedIsThere(b.queue, k);
    }
  }

  /** The terminal of a load decides its source's result, unless a failed cache copy is replanned. */
  lemma LoadResultIs(b: Batch, t: nat, outcome: LoadOutcome, ids: seq<nat>, env: Env)
    requires InRange(b) && t in b.tickets
    ensures var i, n := b.tickets[t], OnLoadFinished(b, t, outcome, ids, env);
      && i < |n.sources|
      && (outcome == LoadLoaded ==> n.sources[i].result == Some(CacheHit))
      && (outcome == LoadCancelled ==> n.sources[i].result == Some(Cancelled))
      && (outcome == LoadFailed && !b.sources[i].hostCacheHit ==> n.sources[i].result == Some(Failed))
      && (outcome == LoadFailed && b.sources[i].hostCacheHit && b.stage != Running ==>
            n.sources[i].result == Some(Cancelled))
  {
    FailureShape(Report(Release(b, t), ids), b.tickets[t], env);
  }

  /** cancel() concludes the sources whose import has not started as Cancelled, and no other. */
  lemma CancelResults(b: Batch)
    requires Inv(b) && InRange(b) && b.stage != Cancelling && b.stage != Finished
    ensures |Cancel(b).sources| == |b.sources|
    ensures forall i :: 0 <= i < |b.sources| ==>
      Cancel(b).sources[i].result
      == if i in b.queue || (b.stage == Prepared && b.sources[i].plan != Done) then Some(Cancelled) else b.sources[i].result
  {
    if b.stage == Running {
      var n := b.(cancelled := true, stage := Cancelling);
      CancelQueueSize(n);
      forall i | 0 <= i < |b.sources|
        ensures CancelQueue(n).sources[i].result == if i in b.queue then Some(Cancelled) else b.sources[i].result
      {
        CancelQueueResult(n, i);
      }
    }
  }

  lemma {:induction false} CancelQueueSize(b: Batch)
    requires InRange(b)
    ensures |CancelQueue(b).sources| == |b.sources|
    decreases |b.queue|
  {
    if b.queue != [] {
      CancelQueueSize(SetResult(b.(queue := b.queue[1..]), b.queue[0], Cancelled));
    }
  }

  lemma {:induction false} CancelQueueResult(b: Batch, i: nat)
    requires InRange(b) && i < |b.sources|
    ensures i < |CancelQueue(b).sources|
    ensures CancelQueue(b).sources[i].result == if i in b.queue then Some(Cancelled) else b.sources[i].result
    decreases |b.queue|
  {
    if b.queue != [] {
      var n := b.(queue := b.queue[1..]);
      assert b.queue == [b.queue[0]] + n.queue;
      CancelQueueResult(SetResult(n, b.queue[0], Cancelled), i);
    }
  }

  // ---------- An import on its way ----------

  /** Source `i` has the user's consent and is queued, active, or has ended in one of `ends`. */
  ghost predicate Going(b: Batch, i: nat, ends: set<Outcome>) {
    && i < |b.sources| && b.sources[i].confirmed
    && (forall t :: t in b.tickets ==> b.tickets[t] != i)
    && (i in b.queue || b.active == Some(i) || (b.sources[i].result.Some? && b.sources[i].result.value in ends))
  }

  /** The ends a source can have that `env` lets start, or does not. */
  predicate EndsCover(env: Env, i: nat, ends: set<Outcome>) {
    !env.session(i) || !env.starts(i) ==> Failed in ends
  }

  lemma {:induction false} StartNextJobGoes(b: Batch, env: Env, i: nat, ends: set<Outcome>)
    requires InRange(b) && Going(b, i, ends) && EndsCover(env, i, ends)
    ensures Going(StartNextJob(b, env), i, ends)
    decreases |b.queue|
  {
    if b.stage == Running && b.active.None? && b.queue != [] {
      var j := b.queue[0];
      var n := b.(queue := b.queue[1..]);
      assert b.queue == [j] + n.queue;
      if !env.session(j) || !env.starts(j) {
        StartNextJobGoes(SetResult(n, j, Failed), env, i, ends);
      }
    }
  }

  lemma HitGoes(b: Batch, j: nat, env: Env, i: nat, ends: set<Outcome>)
    requires InRange(b) && j < |b.sources| && j != i && Going(b, i, ends) && EndsCover(env, i, ends)
    ensures Going(StartHitLoad(b, j, env), i, ends)
    decreases if b.sources[j].hostCacheHit then 3 else 0
  {
    if !env.accepts(j, b.sources[j].hostCacheHit) && b.sources[j].hostCacheHit {
      FailureGoes(b, j, env, i, ends);
    }
  }

  lemma FailureGoes(b: Batch, j: nat, env: Env, i: nat, ends: set<Outcome>)
    requires InRange(b) && j < |b.sources| && j != i && Going(b, i, ends) && EndsCover(env, i, ends)
    ensures Going(HandleCacheLoadFailure(b, j, env), i, ends)
    decreases 2
  {
    if b.stage == Running {
      ReplanClearsHit(b.sources[j], env.refacts(j), b.config);
      ResumeGoes(Edit(b, j, Replan(b.sources[j], env.refacts(j), b.config)), j, env, i, ends);
    }
  }

  lemma ResumeGoes(b: Batch, j: nat, env: Env, i: nat, ends: set<Outcome>)
    requires InRange(b) && j < |b.sources| && j != i && Going(b, i, ends) && EndsCover(env, i, ends)
    requires !b.sources[j].hostCacheHit
    ensures Going(Resume(b, j, env), i, ends)
    decreases 1
  {
    if b.sources[j].plan == Hit {
      HitGoes(b, j, env, i, ends);
    } else if b.sources[j].plan == Miss {
      StartNextJobGoes(b.(queue := b.queue + [j]), env, i, ends);
    }
  }

  /** The rest of start()'s loop, past source `i`. */
  lemma {:induction false} LaunchGoes(b: Batch, k: nat, env: Env, i: nat, ends: set<Outcome>)
    requires InRange(b) && i < k <= |b.sources| && Going(b, i, ends) && EndsCover(env, i, ends)
    ensures Going(Launch(b, k, env), i, ends)
    decreases |b.sources| - k
  {
    if k < |b.sources| {
      StartHitLoadShape(b, k, env);
      if b.sources[k].plan == Hit { HitGoes(b, k, env, i, ends); }
      LaunchGoes(LaunchSource(b, k, env), k + 1, env, i, ends);
    }
  }

  /** start()'s loop reaches source `i` and queues it. */
  lemma {:induction false} LaunchQueues(b: Batch, k: nat, env: Env, i: nat, s: Source, ends: set<Outcome>)
    requires InRange(b) && k <= i && Rests(b, i, s) && s.plan == Miss && s.confirmed && EndsCover(env, i, ends)
    ensures Going(Launch(b, k, env), i, ends)
    decreases |b.sources| - k
  {
    StartHitLoadShape(b, k, env);
    if k == i {
      LaunchGoes(b.(queue := b.queue + [i]), i + 1, env, i, ends);
    } else {
      if b.sources[k].plan == Hit { HitRests(b, k, env, i, s); }
      LaunchQueues(LaunchSource(b, k, env), k + 1, env, i, s, ends);
    }
  }

  lemma {:induction false} CancelQueueGoes(b: Batch, i: nat, ends: set<Outcome>)
    requires InRange(b) && Going(b, i, ends) && Cancelled in ends
    ensures Going(CancelQueue(b), i, ends)
    decreases |b.queue|
  {
    if b.queue != [] {
      var n := b.(queue := b.queue[1..]);
      assert b.queue == [b.queue[0]] + n.queue;
      CancelQueueGoes(SetResult(n, b.queue[0], Cancelled), i, ends);
    }
  }

  lemma MaybeFinishGoes(b: Batch, i: nat, ends: set<Outcome>)
    requires Going(b, i, ends)
    ensures Going(MaybeFinish(b), i, ends)
  {
  }

  lemma LoadFinishedGoes(b: Batch, t: nat, outcome: LoadOutcome, ids: seq<nat>, env: Env, i: nat, ends: set<Outcome>)
    requires InRange(b) && Going(b, i, ends) && EndsCover(env, i, ends)
    ensures Going(OnLoadFinished(b, t, outcome, ids, env), i, ends)
  {
    if t in b.tickets {
      ReleaseGoes(b, t, ids, i, ends);
      HeardGoes(Report(Release(b, t), ids), b.tickets[t], outcome, env, i, ends);
    }
  }

  lemma ReleaseGoes(b: Batch, t: nat, ids: seq<nat>, i: nat, ends: set<Outcome>)
    requires InRange(b) && t in b.tickets && Going(b, i, ends)
    ensures var n := Report(Release(b, t), ids); InRange(n) && Going(n, i, ends)
  {
  }

  lemma HeardGoes(n: Batch, j: nat, outcome: LoadOutcome, env: Env, i: nat, ends: set<Outcome>)
    requires InRange(n) && j < |n.sources| && j != i && Going(n, i, ends) && EndsCover(env, i, ends)
    ensures var o := match outcome case LoadLoaded => CacheHit case LoadCancelled => Cancelled case LoadFailed => Failed;
      && Going(MaybeFinish(SetResult(n, j, o)), i, ends)
      && Going(MaybeFinish(HandleCacheLoadFailure(n, j, env)), i, ends)
  {
    FailureGoes(n, j, env, i, ends);
    MaybeFinishGoes(HandleCacheLoadFailure(n, j, env), i, ends);
  }

  const JOB_ENDS: set<Outcome> := {Imported, Failed, Cancelled}

  lemma JobTerminalGoes(b: Batch, outcome: JobOutcome, env: Env, i: nat)
    requires InRange(b) && b.active.Some? && Going(b, i, JOB_ENDS)
    ensures Going(OnJobTerminal(b, outcome, env), i, JOB_ENDS)
  {
    var n := SetResult(b.(active := None), b.active.value, JobResult(outcome));
    assert Going(n, i, JOB_ENDS);
    StartNextJobGoes(n, env, i, JOB_ENDS);
    MaybeFinishGoes(StartNextJob(n, env), i, JOB_ENDS);
  }

  lemma CancelGoes(b: Batch, i: nat)
    requires InRange(b) && Going(b, i, JOB_ENDS) && b.stage != Idle && b.stage != Prepared
    ensures Going(Cancel(b), i, JOB_ENDS)
  {
    if b.stage == Running {
      var n := b.(cancelled := true, stage := Cancelling);
      CancelQueueGoes(n, i, JOB_ENDS);
      MaybeFinishGoes(CancelQueue(n), i, JOB_ENDS);
    }
  }

  lemma StepGoes(b: Batch, op: Op, i: nat)
    requires Inv(b) && b.before.Some? && Enabled(b, op) && Going(b, i, JOB_ENDS)
    ensures Going(Step(b, op), i, JOB_ENDS)
  {
    match op
    case PrepareOp(_) =>
    case StartOp(_, _) =>
    case LoadFinishedOp(t, outcome, ids, env) => LoadFinishedGoes(b, t, outcome, ids, env, i, JOB_ENDS);
    case JobDatasetOp(_) =>
    case JobTerminalOp(outcome, env) => JobTerminalGoes(b, outcome, env, i);
    case CancelOp => CancelGoes(b, i);
    case OtherTicketOp =>
  }

  lemma {:induction false} RunGoes(b: Batch, ops: seq<Op>, i: nat)
    requires Inv(b) && b.before.Some? && LegalRun(b, ops) && Going(b, i, JOB_ENDS)
    ensures Going(Run(b, ops), i, JOB_ENDS)
    decreases |ops|
  {
    if ops != [] {
      StepKeeps(b, ops[0]);
      StepGoes(b, ops[0], i);
      StartedStays(b, ops[0]);
      RunGoes(Step(b, ops[0]), ops[1..], i);
    }
  }

  // ---------- The prompt's answer ----------

  /** start() was given `choice` in a batch that is prepared, and source `i` was one the prompt asked about. */
  ghost predicate AskedAbout(b: Batch, choice: Choice, env: Env, i: nat) {
    && Inv(b) && Enabled(b, StartOp(choice, env))
    && i < |b.sources| && b.sources[i].plan == Miss && b.sources[i].needsConfirmation
  }

  lemma SkipRests(b: Batch, env: Env, i: nat)
    requires AskedAbout(b, Skip, env, i)
    ensures Rests(Step(b, StartOp(Skip, env)), i, b.sources[i].(plan := Done, result := Some(SkippedUntrusted)))
    ensures !b.sources[i].confirmed
  {
    var asked := Consent(b, Skip);
    assert Asks(b.sources[i]);
    var s := b.sources[i].(plan := Done, result := Some(SkippedUntrusted));
    assert Rests(asked, i, s);
    if HasPendingWork(asked) {
      LaunchedRests(Started(asked), env, i, s);
    }
  }

  /** Over every run: a source the user skipped has that result for good, never runs and never had consent. */
  lemma SkippedNeverRuns(c: Config, ticket: nat, live: set<nat>, ops: seq<Op>, env: Env, later: seq<Op>, i: nat)
    requires LegalRun(New(c, ticket, live), ops) && AskedAbout(Run(New(c, ticket, live), ops), Skip, env, i)
    requires LegalRun(Step(Run(New(c, ticket, live), ops), StartOp(Skip, env)), later)
    ensures var n := Run(Step(Run(New(c, ticket, live), ops), StartOp(Skip, env)), later);
      && i < |n.sources| && n.sources[i].result == Some(SkippedUntrusted) && !n.sources[i].confirmed
      && i !in n.queue && n.active != Some(i) && forall t :: t in n.tickets ==> n.tickets[t] != i
  {
    var b := Run(New(c, ticket, live), ops);
    StepKeeps(b, StartOp(Skip, env));
    SkipRests(b, env, i);
    RunRests(Step(b, StartOp(Skip, env)), later, i, b.sources[i].(plan := Done, result := Some(SkippedUntrusted)));
  }

  lemma TrustGoes(b: Batch, env: Env, i: nat, ends: set<Outcome>)
    requires AskedAbout(b, TrustAndImport, env, i) && EndsCover(env, i, ends)
    ensures var n := Step(b, StartOp(TrustAndImport, env)); Going(n, i, ends) && n.before.Some?
  {
    var asked := Consent(b, TrustAndImport);
    assert Asks(b.sources[i]);
    var s := b.sources[i].(confirmed := true);
    assert Rests(asked, i, s);
    assert Unfinished(asked.sources[i]);
    var l := Launch(Started(asked), 0, env);
    LaunchShape(Started(asked), 0, env);
    LaunchQueues(Started(asked), 0, env, i, s, ends);
    StartNextJobGoes(l, env, i, ends);
    MaybeFinishGoes(StartNextJob(l, env), i, ends);
    PendingStarts(b, TrustAndImport, env);
  }

  /** A batch with something to do takes its checkpoint when it starts. */
  lemma PendingStarts(b: Batch, choice: Choice, env: Env)
    requires Inv(b) && b.stage == Prepared && InRange(b) && !Declined(b, choice) && HasPendingWork(Consent(b, choice))
    ensures Start(b, choice, env).before.Some?
  {
    var s := Started(Consent(b, choice));
    ConsentAnswers(b, choice);
    PlannedIsPlaced(s);
    LaunchKeeps(s, 0, env);
    StartNextJobKeeps(Launch(s, 0, env), env, {});
  }

  /**
   Over every run: a source the user trusted leaves start() queued or active, or failed because its job could not be
   started; from then on it is queued, active or has ended as an import job ends, and its consent stands.
   */
  lemma TrustedIsImported(c: Config, ticket: nat, live: set<nat>, ops: seq<Op>, env: Env, later: seq<Op>, i: nat)
    requires LegalRun(New(c, ticket, live), ops) && AskedAbout(Run(New(c, ticket, live), ops), TrustAndImport, env, i)
    requires LegalRun(Step(Run(New(c, ticket, live), ops), StartOp(TrustAndImport, env)), later)
    ensures var n := Step(Run(New(c, ticket, live), ops), StartOp(TrustAndImport, env));
      && i < |n.sources| && n.sources[i].confirmed
      && (i in n.queue || n.active == Some(i)
          || (n.sources[i].result == Some(Failed) && (!env.session(i) || !env.starts(i))))
    ensures var n := Run(Step(Run(New(c, ticket, live), ops), StartOp(TrustAndImport, env)), later);
      && i < |n.sources| && n.sources[i].confirmed
      && (i in n.queue || n.active == Some(i) || n.sources[i].result == Some(Imported)
          || n.sources[i].result == Some(Failed) || n.sources[i].result == Some(Cancelled))
  {
    var b := Run(New(c, ticket, live), ops);
    TrustGoes(b, env, i, if !env.session(i) || !env.starts(i) then {Failed} else {});
    TrustGoes(b, env, i, JOB_ENDS);
    StepKeeps(b, StartOp(TrustAndImport, env));
    RunGoes(Step(b, StartOp(TrustAndImport, env)), later, i);
  }

  /** A prompt answered with cancelling the layout ends the batch before it has touched anything. */
  lemma CancelledLayoutTouchesNothing(b: Batch, env: Env, i: nat)
    requires AskedAbout(b, CancelLayout, env, i)
    ensures var n := Step(b, StartOp(CancelLayout, env));
      && n.stage == Finished && n.sources == b.sources && n.effects == [] && n.tickets == map[] && n.live == b.live
      && n.active.None? && n.queue == [] && n.nextTicket == b.nextTicket
  {
    assert Asks(b.sources[i]);
  }
}
