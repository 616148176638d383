/**
 The layout import batch as the object it is: a job vector with a cursor, a ticket map, the planned sources and the
 flags, updated step by step. A valid batch has every planned source in exactly one place; each of its operations is
 proved against the operation on values of the same name and leaves the batch valid.
 */
module ImportBatch {
  import opened Basics
  import opened LayoutImport
  import C = LayoutImportConsent
  import P = LayoutImportPlans
  import T = LayoutImportTheorems

  class LayoutImportBatch {
    const config: Config
    var stage: Stage
    var planned: seq<Source>
    var pendingTickets: map<nat, nat>
    var jobQueue: seq<nat>
    var jobCursor: nat
    var active: Option<nat>
    var produced: seq<nat>
    var checkpoint: bool
    var cancelled: bool
    var loaderTicket: nat           // the loader's ticket counter
    var effects: seq<Effect>        // calls into the hooks and the finished() post
    ghost var ledger: seq<nat>
    ghost var live: set<nat>
    ghost var before: Option<set<nat>>

    ghost function View(): Batch
      requires jobCursor <= |jobQueue|
      reads this
    {
      Batch(config, stage, planned, pendingTickets, jobQueue[jobCursor..], active, produced, checkpoint, cancelled,
            loaderTicket, ledger, effects, live, before)
    }

    /** Every index the batch stores names a planned source. */
    ghost predicate Shaped()
      reads this
    {
      jobCursor <= |jobQueue| && InRange(View())
    }

    /** Between two operations: one place per source, a child outstanding while under way, nothing left once finished. */
    ghost predicate Valid()
      reads this
    {
      Shaped() && T.Inv(View())
    }

    /** The operation just done is `op`. */
    lemma Settles(was: Batch, op: T.Op)
      requires Shaped() && T.Inv(was) && T.Enabled(was, op) && View() == T.Step(was, op)
      requires T.ChildTerminal(was, op) || op.StartOp? || op.CancelOp?
      ensures Valid() && T.Settled(View())
    {
      T.StepSettles(was, op);
    }

    constructor (c: Config, ticket: nat, ghost datasets: set<nat>)
      ensures Valid() && View() == New(c, ticket, datasets)
    {
      config, stage, planned, pendingTickets, jobQueue, jobCursor := c, Idle, [], map[], [], 0;
      active, produced, checkpoint, cancelled, loaderTicket, effects := None, [], false, false, ticket, [];
      ledger, live, before := [], datasets, None;
    }

    // ---------- Small updates ----------

    method Put(i: nat, s: Source)
      requires Shaped() && i < |planned|
      modifies this`planned
      ensures Shaped() && View() == Edit(old(View()), i, s)
    {
      planned := planned[i := s];
    }

    method Conclude(i: nat, outcome: Outcome)
      requires Shaped() && i < |planned|
      modifies this`planned
      ensures Shaped() && View() == SetResult(old(View()), i, outcome)
    {
      Put(i, planned[i].(result := Some(outcome)));
    }

    method AwaitTicket(i: nat)
      requires Shaped() && i < |planned|
      modifies this`planned, this`pendingTickets, this`loaderTicket
      ensures Shaped() && View() == Await(old(View()), i)
    {
      loaderTicket := loaderTicket + 1;
      pendingTickets := pendingTickets[loaderTicket := i];
      planned := planned[i := planned[i].(ticket := Some(loaderTicket))];
    }

    method TakeTicket(t: nat) returns (i: nat)
      requires Shaped() && t in pendingTickets
      modifies this`planned, this`pendingTickets
      ensures Shaped() && i == old(pendingTickets)[t] && i < |planned|
      ensures View() == Release(old(View()), t)
    {
      i := pendingTickets[t];
      pendingTickets := pendingTickets - {t};
      planned := planned[i := planned[i].(ticket := None)];
    }

    method Enqueue(i: nat)
      requires Shaped() && i < |planned|
      modifies this`jobQueue
      ensures Shaped() && View() == old(View()).(queue := old(View()).queue + [i])
    {
      ghost var was := jobQueue[jobCursor..];
      jobQueue := jobQueue + [i];
      assert jobQueue[jobCursor..] == was + [i];
    }

    method NextQueued() returns (i: nat)
      requires Shaped() && jobCursor < |jobQueue|
      modifies this`jobCursor
      ensures Shaped() && i == old(View()).queue[0] && i < |planned|
      ensures View() == old(View()).(queue := old(View()).queue[1..])
    {
      ghost var was := jobQueue[jobCursor..];
      i := jobQueue[jobCursor];
      jobCursor := jobCursor + 1;
      assert jobQueue[jobCursor..] == was[1..];
      assert View() == old(View()).(queue := was[1..]);
    }

    // ---------- Children ----------

    method StartJobs(env: Env)
      requires Shaped()
      modifies this`planned, this`jobCursor, this`active
      ensures Shaped() && View() == StartNextJob(old(View()), env) && |planned| == old(|planned|)
      ensures stage == old(stage) && jobQueue == old(jobQueue)
    {
      if stage != Running || active.Some? {
        return;
      }
      while jobCursor < |jobQueue|
        invariant Shaped() && active.None? && stage == Running && |planned| == old(|planned|)
        invariant StartNextJob(View(), env) == StartNextJob(old(View()), env)
      {
        var i := NextQueued();
        if !env.session(i) || !env.starts(i) {
          Conclude(i, Failed);
          continue;
        }
        active := Some(i);
        return;
      }
    }

    method LoadHit(i: nat, env: Env)
      requires Shaped() && i < |planned|
      modifies this`planned, this`pendingTickets, this`loaderTicket, this`jobQueue, this`jobCursor, this`active
      ensures Shaped() && View() == StartHitLoad(old(View()), i, env) && |planned| == old(|planned|)
      decreases if planned[i].hostCacheHit then 3 else 0
    {
      if !env.accepts(i, planned[i].hostCacheHit) {
        if planned[i].hostCacheHit {
          CacheLoadFailed(i, env);
          return;
        }
        Put(i, Concluded(planned[i], Failed));
        return;
      }
      AwaitTicket(i);
    }

    method CacheLoadFailed(i: nat, env: Env)
      requires Shaped() && i < |planned|
      modifies this`planned, this`pendingTickets, this`loaderTicket, this`jobQueue, this`jobCursor, this`active
      ensures Shaped() && View() == HandleCacheLoadFailure(old(View()), i, env) && |planned| == old(|planned|)
      decreases 2
    {
      if stage != Running {
        Put(i, Concluded(planned[i].(hostCacheHit := false), Cancelled));
        return;
      }
      var s := Replan(planned[i], env.refacts(i), config);
      ReplanClearsHit(planned[i], env.refacts(i), config);
      Put(i, s);
      if s.plan == Hit {
        LoadHit(i, env);
      } else if s.plan == Miss {
        Enqueue(i);
        StartJobs(env);
      }
    }

    // ---------- The operations ----------

    method PrepareSources(facts: seq<Facts>)
      requires Valid() && stage == Idle
      modifies this`stage, this`planned
      ensures Valid() && View() == Prepare(old(View()), facts)
    {
      stage := Prepared;
      for k := 0 to |facts|
        invariant stage == Prepared && |planned| == k && forall j :: 0 <= j < k ==> planned[j] == PlanSource(facts[j], config)
      {
        planned := planned + [PlanSource(facts[k], config)];
      }
      assert planned == Prepare(old(View()), facts).sources;
      T.StepKeeps(old(View()), T.PrepareOp(facts));
    }

    /** The consolidated trust prompt; `declined` is the cancel answer. */
    method AskConsent(choice: Choice) returns (declined: bool)
      requires Shaped()
      modifies this`planned
      ensures Shaped() && declined == Declined(old(View()), choice) && |planned| == old(|planned|)
      ensures View() == if declined then old(View()) else Consent(old(View()), choice)
      ensures declined <==> choice == CancelLayout && exists i ::
        0 <= i < |planned| && old(planned)[i].plan == Miss && old(planned)[i].needsConfirmation
      ensures forall i :: 0 <= i < |planned| ==>
        if declined || old(planned)[i].plan != Miss || !old(planned)[i].needsConfirmation then
          planned[i] == old(planned)[i]
        else if choice == Skip then
          && planned[i].plan == Done && planned[i].result == Some(SkippedUntrusted)
          && planned[i].confirmed == old(planned)[i].confirmed
        else
          planned[i].plan == Miss && planned[i].confirmed && planned[i].result == old(planned)[i].result
    {
      var asked := false;
      for k := 0 to |planned|
        invariant asked <==> exists i :: 0 <= i < k && Asks(planned[i])
      {
        asked := asked || Asks(planned[k]);
      }
      if !asked {
        return false;
      }
      if choice == CancelLayout {
        return true;
      }
      for k := 0 to |planned|
        invariant |planned| == old(|planned|)
        invariant forall j :: 0 <= j < k ==> planned[j] == Prompted(old(View()), choice).sources[j]
        invariant forall j :: k <= j < |planned| ==> planned[j] == old(planned)[j]
      {
        if Asks(planned[k]) {
          planned := planned[k := if choice == Skip then Concluded(planned[k], SkippedUntrusted)
                                  else planned[k].(confirmed := true)];
        }
      }
      assert planned == Prompted(old(View()), choice).sources;
      return false;
    }

    method AnyPending() returns (pending: bool)
      requires Shaped()
      ensures pending == HasPendingWork(View())
    {
      pending := false;
      for k := 0 to |planned|
        invariant pending <==> exists i :: 0 <= i < k && Unfinished(planned[i])
      {
        pending := pending || Unfinished(planned[k]);
      }
    }

    method TakeCheckpoint()
      requires Shaped()
      modifies this`stage, this`checkpoint, this`effects, this`before
      ensures Shaped() && View() == Started(old(View()))
    {
      if config.checkpoints {
        effects := effects + [Checkpoint];
      }
      checkpoint := config.checkpoints;
      before := Some(live);
      stage := Running;
    }

    method LaunchNext(k: nat, env: Env)
      requires Shaped() && k < |planned|
      modifies this`planned, this`pendingTickets, this`loaderTicket, this`jobQueue, this`jobCursor, this`active
      ensures Shaped() && |planned| == old(|planned|)
      ensures Launch(View(), k + 1, env) == Launch(old(View()), k, env)
    {
      if planned[k].plan == Hit {
        LoadHit(k, env);
      } else if planned[k].plan == Miss {
        Enqueue(k);
      }
    }

    method LaunchAll(env: Env)
      requires Shaped()
      modifies this`planned, this`pendingTickets, this`loaderTicket, this`jobQueue, this`jobCursor, this`active
      ensures Shaped() && View() == Launch(old(View()), 0, env) && |planned| == old(|planned|)
    {
      for k := 0 to |planned|
        invariant Shaped() && |planned| == old(|planned|)
        invariant Launch(View(), k, env) == Launch(old(View()), 0, env)
      {
        LaunchNext(k, env);
      }
    }

    method StartBatch(choice: Choice, env: Env)
      requires Valid() && stage == Prepared
      modifies this
      ensures Valid() && View() == Start(old(View()), choice, env)
      ensures T.Settled(View())
      ensures !Declined(old(View()), choice) && stage == Finished ==> T.AllConcluded(View())
    {
      if !Declined(View(), choice) { P.StartLeavesNothingPlanned(View(), choice, env); }
      StartPrepared(choice, env);
      Settles(old(View()), T.StartOp(choice, env));
    }

    method StartPrepared(choice: Choice, env: Env)
      requires Shaped() && stage == Prepared
      modifies this
      ensures Shaped() && View() == Start(old(View()), choice, env)
    {
      var declined := AskConsent(choice);
      if declined {
        stage := Finished;
        return;
      }
      var pending := AnyPending();
      if !pending {
        stage := Finished;
        return;
      }
      TakeCheckpoint();
      LaunchAll(env);
      StartJobs(env);
      FinishIfDrained();
    }

    method Record(ids: seq<nat>)
      requires Shaped()
      modifies this`produced, this`ledger, this`live
      ensures Shaped() && View() == Report(old(View()), ids)
    {
      produced := produced + ids;
      ledger := ledger + ids;
      live := live + set x | x in ids;
    }

    method LoadFinished(t: nat, outcome: LoadOutcome, ids: seq<nat>, env: Env)
      requires Valid()
      modifies this
      ensures Valid() && View() == OnLoadFinished(old(View()), t, outcome, ids, env)
      ensures t in old(pendingTickets) ==> T.Settled(View())
      ensures t !in old(pendingTickets) ==> View() == old(View())
      ensures t in old(pendingTickets) ==>
        var i := old(pendingTickets)[t];
        && i < |planned| && i < |old(planned)|
        && (outcome == LoadLoaded ==> planned[i].result == Some(CacheHit))
        && (outcome == LoadCancelled ==> planned[i].result == Some(Cancelled))
        && (outcome == LoadFailed && !old(planned)[i].hostCacheHit ==> planned[i].result == Some(Failed))
        && (outcome == LoadFailed && old(planned)[i].hostCacheHit && old(stage) != Running ==>
              planned[i].result == Some(Cancelled))
    {
      if t in pendingTickets {
        C.LoadResultIs(View(), t, outcome, ids, env);
        LoadEnded(t, outcome, ids, env);
        Settles(old(View()), T.LoadFinishedOp(t, outcome, ids, env));
      }
    }

    method LoadEnded(t: nat, outcome: LoadOutcome, ids: seq<nat>, env: Env)
      requires Shaped() && t in pendingTickets
      modifies this
      ensures Shaped() && View() == OnLoadFinished(old(View()), t, outcome, ids, env)
    {
      var i := TakeTicket(t);
      Record(ids);
      match outcome {
        case LoadLoaded => Conclude(i, CacheHit);
        case LoadCancelled => Conclude(i, Cancelled);
        case LoadFailed =>
          if planned[i].hostCacheHit {
            CacheLoadFailed(i, env);
          } else {
            Conclude(i, Failed);
          }
      }
      FinishIfDrained();
    }

    /** The active job announced a dataset. */
    method JobDataset(id: nat)
      requires Valid() && active.Some?
      modifies this`produced, this`ledger, this`live
      ensures Valid() && View() == Report(old(View()), [id])
    {
      Record([id]);
      T.StepKeeps(old(View()), T.JobDatasetOp(id));
    }

    method JobTerminal(outcome: JobOutcome, env: Env)
      requires Valid() && active.Some?
      modifies this
      ensures Valid() && View() == OnJobTerminal(old(View()), outcome, env)
      ensures T.Settled(View())
      ensures var i := old(active).value;
        && i < |planned| && planned[i].result.Some?
        && (planned[i].result.value == Imported <==> outcome == JobPromoted || outcome == JobEager)
        && (planned[i].result.value == Cancelled <==> outcome == JobCancelled)
        && (planned[i].result.value == Failed <==> outcome == JobFailed)
    {
      C.JobResultIs(View(), outcome, env);
      JobEnded(outcome, env);
      Settles(old(View()), T.JobTerminalOp(outcome, env));
    }

    method JobEnded(outcome: JobOutcome, env: Env)
      requires Shaped() && active.Some?
      modifies this
      ensures Shaped() && View() == OnJobTerminal(old(View()), outcome, env)
    {
      var i := active.value;
      active := None;
      Conclude(i, JobResult(outcome));
      StartJobs(env);
      FinishIfDrained();
    }

    method ConcludePlanned()
      requires Shaped()
      modifies this`planned
      ensures Shaped() && View() == CancelPlanned(old(View()))
    {
      for k := 0 to |planned|
        invariant |planned| == old(|planned|)
        invariant forall j :: 0 <= j < k ==> planned[j] == CancelPlanned(old(View())).sources[j]
        invariant forall j :: k <= j < |planned| ==> planned[j] == old(planned)[j]
      {
        if planned[k].plan != Done {
          planned := planned[k := Concluded(planned[k], Cancelled)];
        }
      }
      assert planned == CancelPlanned(old(View())).sources;
    }

    method ConcludeQueue()
      requires Shaped()
      modifies this`planned, this`jobCursor
      ensures Shaped() && View() == CancelQueue(old(View()))
    {
      while jobCursor < |jobQueue|
        invariant Shaped() && CancelQueue(View()) == CancelQueue(old(View()))
      {
        var i := NextQueued();
        Conclude(i, Cancelled);
      }
    }

    method CancelBatch()
      requires Valid()
      modifies this
      ensures Valid() && View() == Cancel(old(View()))
      ensures T.Settled(View()) && stage != Running
      ensures old(stage) != Cancelling && old(stage) != Finished ==>
        && |planned| == |old(planned)|
        && forall i :: 0 <= i < |planned| ==>
             planned[i].result == (if i in old(View()).queue || (old(stage) == Prepared && old(planned)[i].plan != Done)
                                   then Some(Cancelled) else old(planned)[i].result)
    {
      if stage != Cancelling && stage != Finished {
        C.CancelResults(View());
      }
      CancelOnce();
      Settles(old(View()), T.CancelOp);
    }

    method CancelOnce()
      requires Shaped()
      modifies this
      ensures Shaped() && View() == Cancel(old(View()))
      ensures stage == Finished || stage == Cancelling
    {
      if stage == Finished || stage == Cancelling {
        return;
      }
      var running := stage == Running;
      cancelled := true;
      stage := Cancelling;
      if running {
        ConcludeQueue();
      } else {
        ConcludePlanned();
      }
      FinishIfDrained();
    }

    /** The loader gave out a ticket to somebody else. */
    method OtherTicket()
      requires Valid()
      modifies this`loaderTicket
      ensures Valid() && View() == old(View()).(nextTicket := old(loaderTicket) + 1)
    {
      loaderTicket := loaderTicket + 1;
      T.OtherTicketKeeps(old(View()));
    }

    // ---------- Whole runs ----------

    method Perform(op: T.Op)
      requires Valid() && T.Enabled(View(), op)
      modifies this
      ensures Valid() && View() == T.Step(old(View()), op)
    {
      match op {
        case PrepareOp(facts) => PrepareSources(facts);
        case StartOp(choice, env) => StartBatch(choice, env);
        case LoadFinishedOp(t, outcome, ids, env) => LoadFinished(t, outcome, ids, env);
        case JobDatasetOp(id) => JobDataset(id);
        case JobTerminalOp(outcome, env) => JobTerminal(outcome, env);
        case CancelOp => CancelBatch();
        case OtherTicketOp => OtherTicket();
      }
    }

    /** The object follows the run of the operations on values, so whatever holds of every run holds of the object. */
    method PerformAll(ops: seq<T.Op>)
      requires Valid() && T.LegalRun(View(), ops)
      modifies this
      ensures Valid() && View() == T.Run(old(View()), ops)
    {
      for k := 0 to |ops|
        invariant Valid() && T.LegalRun(View(), ops[k..])
        invariant T.Run(View(), ops[k..]) == T.Run(old(View()), ops)
      {
        assert ops[k..][1..] == ops[k + 1..];
        Perform(ops[k]);
      }
    }

    method RollBack()
      requires Shaped()
      modifies this`effects, this`live, this`produced
      ensures Shaped() && View() == RolledBack(old(View()))
    {
      if stage != Cancelling || !checkpoint {
        return;
      }
      for k := 0 to |produced|
        invariant produced == old(produced)
        invariant effects == old(effects) + Removals(produced)[..k]
        invariant live == old(live) - set x | x in produced[..k]
      {
        assert Removals(produced)[..k + 1] == Removals(produced)[..k] + [Remove(produced[k])];
        assert produced[..k + 1] == produced[..k] + [produced[k]];
        effects := effects + [Remove(produced[k])];
        live := live - {produced[k]};
      }
      assert Removals(produced)[..|produced|] == Removals(produced) && produced[..|produced|] == produced;
      effects := effects + [Restore];
      produced := [];
    }

    method FinishIfDrained()
      requires Shaped()
      modifies this`stage, this`effects, this`live, this`produced
      ensures Shaped() && View() == MaybeFinish(old(View()))
    {
      if stage != Running && stage != Cancelling {
        return;
      }
      if pendingTickets != map[] || active.Some? || jobCursor < |jobQueue| {
        return;
      }
      RollBack();
      stage := Finished;
      effects := effects + [EmitFinished];
    }
  }
}
