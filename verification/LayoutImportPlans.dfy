/** Over every run of the import batch, a source runs the way it was planned, and nothing planned is left behind. */
module LayoutImportPlans {
  import opened Basics
  import opened LayoutImport
  import opened LayoutImportSafety
  import opened LayoutImportTheorems
  import opened LayoutImportConsent

  /** Queued and active sources are planned as imports, sources that wait for a load as files to load. */
  ghost predicate AsPlanned(b: Batch) {
    && InRange(b)
    && (forall k :: 0 <= k < |b.queue| ==> b.sources[b.queue[k]].plan == Miss)
    && (b.active.Some? ==> b.sources[b.active.value].plan == Miss)
    && (forall t :: t in b.tickets ==> b.sources[b.tickets[t]].plan == Hit)
  }

  lemma {:induction false} StartNextJobPlanned(b: Batch, env: Env)
    requires AsPlanned(b)
    ensures AsPlanned(StartNextJob(b, env))
    decreases |b.queue|
  {
    if b.stage == Running && b.active.None? && b.queue != [] {
      var i := b.queue[0];
      if !env.session(i) || !env.starts(i) {
        StartNextJobPlanned(SetResult(b.(queue := b.queue[1..]), i, Failed), env);
      }
    }
  }

  lemma HitPlanned(b: Batch, i: nat, env: Env)
    requires AsPlanned(b) && i < |b.sources| && b.sources[i].plan == Hit && Nowhere(b, i)
    ensures AsPlanned(StartHitLoad(b, i, env))
    decreases if b.sources[i].hostCacheHit then 3 else 0
  {
    AwaitPlanned(b, i);
    EditPlanned(b, i, Concluded(b.sources[i], Failed));
    if !env.accepts(i, b.sources[i].hostCacheHit) && b.sources[i].hostCacheHit {
      FailurePlanned(b, i, env);
    }
  }

  lemma AwaitPlanned(b: Batch, i: nat)
    requires AsPlanned(b) && i < |b.sources| && b.sources[i].plan == Hit
    ensures AsPlanned(Await(b, i))
  {
  }

  lemma EditPlanned(b: Batch, i: nat, s: Source)
    requires AsPlanned(b) && i < |b.sources| && Nowhere(b, i)
    ensures AsPlanned(Edit(b, i, s)) && Nowhere(Edit(b, i, s), i)
  {
    assert forall k :: 0 <= k < |b.queue| ==> b.queue[k] in b.queue;
  }

  lemma FailurePlanned(b: Batch, i: nat, env: Env)
    requires AsPlanned(b) && i < |b.sources| && Nowhere(b, i)
    ensures AsPlanned(HandleCacheLoadFailure(b, i, env))
    decreases 2
  {
    EditPlanned(b, i, Concluded(b.sources[i].(hostCacheHit := false), Cancelled));
    if b.stage == Running {
      ReplanClearsHit(b.sources[i], env.refacts(i), b.config);
      EditPlanned(b, i, Replan(b.sources[i], env.refacts(i), b.config));
      ResumePlanned(Edit(b, i, Replan(b.sources[i], env.refacts(i), b.config)), i, env);
    }
  }

  lemma ResumePlanned(b: Batch, i: nat, env: Env)
    requires AsPlanned(b) && i < |b.sources| && Nowhere(b, i) && !b.sources[i].hostCacheHit
    ensures AsPlanned(Resume(b, i, env))
    decreases 1
  {
    if b.sources[i].plan == Hit {
      HitPlanned(b, i, env);
    } else if b.sources[i].plan == Miss {
      StartNextJobPlanned(b.(queue := b.queue + [i]), env);
    }
  }

  lemma {:induction false} LaunchPlanned(b: Batch, k: nat, env: Env)
    requires AsPlanned(b) && k <= |b.sources| && forall j: nat :: k <= j < |b.sources| ==> Nowhere(b, j)
    ensures AsPlanned(Launch(b, k, env))
    decreases |b.sources| - k
  {
    if k < |b.sources| {
      var n := LaunchSource(b, k, env);
      StartHitLoadShape(b, k, env);
      if b.sources[k].plan == Hit { HitPlanned(b, k, env); }
      forall j: nat | k + 1 <= j < |n.sources| ensures Nowhere(n, j) {
        OthersStayNowhere(b, k, env, j);
      }
      LaunchPlanned(n, k + 1, env);
    }
  }

  lemma OthersStayNowhere(b: Batch, k: nat, env: Env, j: nat)
    requires InRange(b) && k < |b.sources| && j < |b.sources| && j != k && Nowhere(b, j)
    ensures Nowhere(LaunchSource(b, k, env), j)
  {
    if b.sources[k].plan == Hit {
      HitRests(b, k, env, j, b.sources[j]);
    } else if b.sources[k].plan == Miss {
      assert j !in b.queue + [k];
    }
  }

  lemma {:induction false} CancelQueuePlanned(b: Batch)
    requires AsPlanned(b)
    ensures AsPlanned(CancelQueue(b))
    decreases |b.queue|
  {
    if b.queue != [] {
      CancelQueuePlanned(SetResult(b.(queue := b.queue[1..]), b.queue[0], Cancelled));
    }
  }

  lemma MaybeFinishPlanned(b: Batch)
    requires AsPlanned(b)
    ensures AsPlanned(MaybeFinish(b))
  {
  }

  lemma StartPlanned(b: Batch, choice: Choice, env: Env)
    requires Inv(b) && b.stage == Prepared && InRange(b)
    ensures AsPlanned(Start(b, choice, env))
  {
    var asked := Consent(b, choice);
    if !Declined(b, choice) && HasPendingWork(asked) {
      var s := Started(asked);
      assert AsPlanned(s) && forall j: nat :: j < |s.sources| ==> Nowhere(s, j);
      LaunchPlanned(s, 0, env);
      LaunchShape(s, 0, env);
      StartNextJobPlanned(Launch(s, 0, env), env);
      MaybeFinishPlanned(StartNextJob(Launch(s, 0, env), env));
    }
  }

  lemma ReleasedIsNowhere(b: Batch, t: nat, ids: seq<nat>)
    requires Inv(b) && t in b.tickets
    ensures var n := Report(Release(b, t), ids); InRange(n) && b.tickets[t] < |n.sources| && Nowhere(n, b.tickets[t])
  {
    var i := b.tickets[t];
    var n := Report(Release(b, t), ids);
    ReleasedIsReady(b, t, ids);
    ReadyIsNowhere(n, i, {i});
    if i in n.queue {
      var k :| 0 <= k < |n.queue| && n.queue[k] == i;
      CountedIsThere(n.queue, k);
    }
  }

  lemma LoadFinishedPlanned(b: Batch, t: nat, outcome: LoadOutcome, ids: seq<nat>, env: Env)
    requires Inv(b) && AsPlanned(b)
    ensures AsPlanned(OnLoadFinished(b, t, outcome, ids, env))
  {
    if t in b.tickets {
      var n := Report(Release(b, t), ids);
      ReleasedIsNowhere(b, t, ids);
      assert AsPlanned(n);
      HeardPlanned(n, b.tickets[t], outcome, env);
    }
  }

  lemma HeardPlanned(n: Batch, i: nat, outcome: LoadOutcome, env: Env)
    requires AsPlanned(n) && i < |n.sources| && Nowhere(n, i)
    ensures var o := match outcome case LoadLoaded => CacheHit case LoadCancelled => Cancelled case LoadFailed => Failed;
      AsPlanned(MaybeFinish(SetResult(n, i, o))) && AsPlanned(MaybeFinish(HandleCacheLoadFailure(n, i, env)))
  {
    FailurePlanned(n, i, env);
    MaybeFinishPlanned(HandleCacheLoadFailure(n, i, env));
  }

  lemma JobTerminalPlanned(b: Batch, outcome: JobOutcome, env: Env)
    requires AsPlanned(b) && b.active.Some?
    ensures AsPlanned(OnJobTerminal(b, outcome, env))
  {
    var n := SetResult(b.(active := None), b.active.value, JobResult(outcome));
    StartNextJobPlanned(n, env);
    MaybeFinishPlanned(StartNextJob(n, env));
  }

  lemma CancelStaysPlanned(b: Batch)
    requires Inv(b) && AsPlanned(b)
    ensures AsPlanned(Cancel(b))
  {
    if b.stage == Running {
      CancelQueuePlanned(b.(cancelled := true, stage := Cancelling));
    }
  }

  lemma StepPlanned(b: Batch, op: Op)
    requires Inv(b) && AsPlanned(b) && Enabled(b, op)
    ensures AsPlanned(Step(b, op))
  {
    match op
    case PrepareOp(_) =>
    case StartOp(choice, env) => StartPlanned(b, choice, env);
    case LoadFinishedOp(t, outcome, ids, env) => LoadFinishedPlanned(b, t, outcome, ids, env);
    case JobDatasetOp(_) =>
    case JobTerminalOp(outcome, env) => JobTerminalPlanned(b, outcome, env);
    case CancelOp => CancelStaysPlanned(b);
    case OtherTicketOp =>
  }

  lemma {:induction false} RunPlanned(b: Batch, ops: seq<Op>)
    requires Inv(b) && AsPlanned(b) && LegalRun(b, ops)
    ensures AsPlanned(Run(b, ops))
    decreases |ops|
  {
    if ops != [] {
      StepKeeps(b, ops[0]);
      StepPlanned(b, ops[0]);
      RunPlanned(Step(b, ops[0]), ops[1..]);
    }
  }

  /** In every reachable state only planned imports are queued or active, and only planned files wait for a load. */
  lemma SourcesRunAsPlanned(c: Config, ticket: nat, live: set<nat>, ops: seq<Op>, i: nat)
    requires LegalRun(New(c, ticket, live), ops)
    ensures var b := Run(New(c, ticket, live), ops);
      && (i in b.queue || b.active == Some(i) ==> i < |b.sources| && b.sources[i].plan == Miss)
      && forall t :: t in b.tickets && b.tickets[t] == i ==> i < |b.sources| && b.sources[i].plan == Hit
  {
    RunPlanned(New(c, ticket, live), ops);
  }

  /** start() that was not declined either leaves a child outstanding or has concluded every source. */
  lemma StartLeavesNothingPlanned(b: Batch, choice: Choice, env: Env)
    requires Inv(b) && b.stage == Prepared && InRange(b) && !Declined(b, choice)
    ensures var n := Start(b, choice, env);
      if n.stage == Finished then AllConcluded(n) else n.tickets != map[] || n.active.Some?
  {
    StepSettles(b, StartOp(choice, env));
    if !HasPendingWork(Consent(b, choice)) {
      ConsentAnswers(b, choice);
      var n := Consent(b, choice);
      forall i | 0 <= i < |n.sources| ensures n.sources[i].result.Some? {
        assert !Unfinished(n.sources[i]);
      }
    } else {
      PendingStarts(b, choice, env);
    }
  }
}
