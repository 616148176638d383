/** What every run of the promotion protocol keeps, and why the session's destructor cannot deadlock. */
module PromotionTheorems {
  import opened Basics
  import opened Promotion

  lemma InitialInv(plan: seq<Phase>)
    ensures Inv(Initial(plan))
  {
  }

  lemma {:induction false} RunKeeps(s: State, ops: seq<Op>)
    requires Inv(s) && LegalRun(s, ops)
    ensures Inv(Run(s, ops))
    decreases |ops|
  {
    if ops != [] {
      StepKeeps(s, ops[0]);
      RunKeeps(Step(s, ops[0]), ops[1..]);
    }
  }

  lemma {:induction false} RunAppend(s: State, a: seq<Op>, b: seq<Op>)
    requires LegalRun(s, a) && LegalRun(Run(s, a), b)
    ensures LegalRun(s, a + b) && Run(s, a + b) == Run(Run(s, a), b)
    decreases |a|
  {
    if a == [] {
      assert a + b == b;
    } else {
      RunAppend(Step(s, a[0]), a[1..], b);
      assert (a + b)[1..] == a[1..] + b;
    }
  }

  /** What no step does to a promotion: forget it, change its request, drop an answer, or attach outside a commit. */
  ghost predicate Evolves(s: State, n: State, p: nat, commits: bool) {
    && s.host.nextId <= n.host.nextId
    && (p !in s.host.promotions && p <= s.host.nextId ==> p !in n.host.promotions)
    && (p !in s.host.promotions && p in n.host.promotions ==> !n.host.promotions[p].attached)
    && (p in s.host.promotions ==>
          && p in n.host.promotions
          && n.host.promotions[p].request == s.host.promotions[p].request
          && s.host.promotions[p].answers <= n.host.promotions[p].answers
          && (!commits ==> n.host.promotions[p].attached == s.host.promotions[p].attached))
  }

  lemma PromoteEvolves(s: State, request: Request, posts: bool, p: nat)
    requires p in s.host.promotions ==> p <= s.host.nextId
    ensures Evolves(s, PromoteStep(s, request, posts), p, false)
  {
  }

  lemma LoadFailedEvolves(s: State, path: string, reason: string, current: nat, p: nat)
    requires s.gui.Issuing? ==> s.gui.p in s.host.promotions
    ensures Evolves(s, LoadFailedStep(s, path, reason, current), p, false)
  {
  }

  lemma CommitEvolves(s: State, ticket: nat, produced: set<nat>, p: nat)
    ensures Evolves(s, CommitStep(s, ticket, produced), p, true)
  {
  }

  lemma IssueEvolves(s: State, reply: Reply, p: nat)
    requires s.gui.Issuing? && s.gui.p in s.host.promotions
    ensures Evolves(s, IssueStep(s, reply), p, false)
  {
  }

  lemma LockEvolves(s: State, p: nat)
    requires s.gui.Finishing? && s.gui.p in s.host.promotions
    ensures Evolves(s, LockStep(s), p, false)
  {
  }

  lemma DeliverEvolves(s: State, gui: Gui, k: nat, answer: Answer, p: nat)
    requires k in s.host.promotions
    ensures Evolves(s, s.(host := Deliver(s.host, k, answer), gui := gui), p, false)
  {
  }

  /** A step that leaves every promotion as it is. */
  lemma SameEvolves(s: State, n: State, p: nat)
    requires n.host.promotions == s.host.promotions && n.host.nextId == s.host.nextId
    ensures Evolves(s, n, p, false)
  {
  }

  lemma ShutEvolves(s: State, p: nat)
    ensures Evolves(s, ShutStep(s), p, false)
  {
  }

  lemma ShutStepsEvolve(s: State, op: Op, p: nat)
    requires Enabled(s, op) && (op.Shutdown? || op.Teardown?)
    ensures Evolves(s, Step(s, op), p, false)
  {
    if op.Shutdown? {
      ShutEvolves(s, p);
    } else {
      ShutEvolves(s.(tearing := true, plan := s.plan[1..]), p);
      SameEvolves(s, s.(tearing := true, plan := s.plan[1..], jobs := TeardownStep(s).jobs), p);
    }
  }

  lemma JobStepsEvolve(s: State, op: Op, p: nat)
    requires Enabled(s, op) && (op.StartJob? || op.ConcludeJob? || op.HoldBack? || op.EndJob?)
    ensures Evolves(s, Step(s, op), p, false)
  {
  }

  lemma StepEvolves(s: State, op: Op, p: nat)
    requires Enabled(s, op) && (p in s.host.promotions ==> p <= s.host.nextId)
    ensures Evolves(s, Step(s, op), p, op.Committing?)
  {
    match op
    case Promote(request, posts) => PromoteEvolves(s, request, posts, p);
    case LoadFailed(path, reason, current) => LoadFailedEvolves(s, path, reason, current, p);
    case Issue(reply) => IssueEvolves(s, reply, p);
    case LockFinish => LockEvolves(s, p);
    case Committing(ticket, produced) => CommitEvolves(s, ticket, produced, p);
    case CallBack => DeliverEvolves(s, Idle, s.gui.p, s.gui.answer, p);
    case SweepCall(k) => DeliverEvolves(s, SweepStep(s, k).gui, k, CLOSING, p);
    case Process(owned, alive) => SameEvolves(s, ProcessStep(s, owned, alive), p);
    case Finished(ticket, outcome) => SameEvolves(s, FinishedStep(s, ticket, outcome), p);
    case Shutdown => ShutStepsEvolve(s, op, p);
    case Teardown => ShutStepsEvolve(s, op, p);
    case StartJob(_) => JobStepsEvolve(s, op, p);
    case ConcludeJob(_) => JobStepsEvolve(s, op, p);
    case HoldBack(_, _) => JobStepsEvolve(s, op, p);
    case EndJob(_) => JobStepsEvolve(s, op, p);
  }

  // ---------- Exactly once ----------

  /**
   In every run an accepted call is answered at most once; whenever the GUI thread is back in its event loop each
   decided call has been answered exactly once, and after shutdown every accepted call has.
   */
  lemma AnsweredExactlyOnce(plan: seq<Phase>, ops: seq<Op>, p: nat)
    requires LegalRun(Initial(plan), ops) && p in Run(Initial(plan), ops).host.promotions
    ensures var s := Run(Initial(plan), ops);
      && |s.host.promotions[p].answers| <= 1
      && (s.gui.Idle? ==> (|s.host.promotions[p].answers| == 1 <==> p !in s.host.pending))
      && (s.gui.Idle? && s.host.shuttingDown ==> |s.host.promotions[p].answers| == 1)
  {
    InitialInv(plan);
    RunKeeps(Initial(plan), ops);
    assert PromotionInv(Run(Initial(plan), ops), p);
  }

  /** A call answered ok has its record attached. */
  lemma OkMeansAttached(plan: seq<Phase>, ops: seq<Op>, p: nat)
    requires LegalRun(Initial(plan), ops) && p in Run(Initial(plan), ops).host.promotions
    requires var q := Run(Initial(plan), ops).host.promotions[p]; q.answers != [] && q.answers[0].ok
    ensures Run(Initial(plan), ops).host.promotions[p].attached
  {
    InitialInv(plan);
    RunKeeps(Initial(plan), ops);
    assert PromotionInv(Run(Initial(plan), ops), p);
  }

  /** Attaching happens in one place: a commit that produced the named dataset, which then carries this record. */
  lemma AttachingStep(s: State, op: Op, p: nat)
    requires Enabled(s, op) && p in s.host.promotions && !s.host.promotions[p].attached
    requires p in Step(s, op).host.promotions && Step(s, op).host.promotions[p].attached
    requires p <= s.host.nextId
    ensures op.Committing? && op.ticket in s.host.byTicket && s.host.byTicket[op.ticket] == p
    ensures var d := s.host.promotions[p].request.dataset;
      d in op.produced && d in Step(s, op).records && Step(s, op).records[d] == p
  {
    StepEvolves(s, op, p);
    if op.Committing? {
      assert Step(s, op) == CommitStep(s, op.ticket, op.produced);
    }
  }

  /** The run's step `k` is a commit of `p`'s own load that produced the dataset `p` names. */
  ghost predicate CommitsFor(s: State, ops: seq<Op>, k: nat, p: nat) {
    && k < |ops| && LegalRun(s, ops[..k])
    && var n := Run(s, ops[..k]);
       && Enabled(n, ops[k]) && ops[k].Committing? && n.host.observing
       && ops[k].ticket in n.host.byTicket && n.host.byTicket[ops[k].ticket] == p && p in n.host.promotions
       && n.host.promotions[p].request.dataset in ops[k].produced
       && Step(n, ops[k]).records == n.records[n.host.promotions[p].request.dataset := p]
  }

  /** In every run a record is attached only by a commit of the promotion's own load, to the dataset it names. */
  lemma {:induction false} AttachedByItsCommit(s: State, ops: seq<Op>, p: nat) returns (k: nat)
    requires Inv(s) && LegalRun(s, ops) && (p in s.host.promotions ==> !s.host.promotions[p].attached)
    requires p in Run(s, ops).host.promotions && Run(s, ops).host.promotions[p].attached
    ensures CommitsFor(s, ops, k, p)
    decreases |ops|
  {
    var n := Step(s, ops[0]);
    StepKeeps(s, ops[0]);
    if p in n.host.promotions && n.host.promotions[p].attached {
      NewIsUnattached(s, ops[0], p);
      AttachingStep(s, ops[0], p);
      CommitRecords(s, ops[0], p);
      k := 0;
      assert ops[..0] == [];
    } else {
      var j := AttachedByItsCommit(n, ops[1..], p);
      k := j + 1;
      assert ops[..k][1..] == ops[1..][..j];
    }
  }

  lemma NewIsUnattached(s: State, op: Op, p: nat)
    requires Inv(s) && Enabled(s, op) && p in Step(s, op).host.promotions && Step(s, op).host.promotions[p].attached
    ensures p in s.host.promotions && p <= s.host.nextId
  {
    StepEvolves(s, op, p);
  }

  lemma CommitRecords(s: State, op: Op, p: nat)
    requires op.Committing? && op.ticket in s.host.byTicket && s.host.byTicket[op.ticket] == p
    requires p in s.host.promotions && !s.host.promotions[p].attached && Enabled(s, op)
    requires p in Step(s, op).host.promotions && Step(s, op).host.promotions[p].attached
    ensures s.host.observing && s.host.promotions[p].request.dataset in op.produced
    ensures Step(s, op).records == s.records[s.host.promotions[p].request.dataset := p]
  {
    assert Step(s, op) == CommitStep(s, op.ticket, op.produced);
  }

  /** What was answered is never answered again or differently. */
  lemma {:induction false} AnswersStand(s: State, ops: seq<Op>, p: nat)
    requires Inv(s) && LegalRun(s, ops) && p in s.host.promotions && s.host.promotions[p].answers != []
    ensures p in Run(s, ops).host.promotions
    ensures Run(s, ops).host.promotions[p].answers == s.host.promotions[p].answers
    decreases |ops|
  {
    if ops != [] {
      var n := Step(s, ops[0]);
      StepKeeps(s, ops[0]);
      StepEvolves(s, ops[0], p);
      assert PromotionInv(s, p) && PromotionInv(n, p);
      AnswersStand(n, ops[1..], p);
    }
  }

  /** The id a refused call used up never becomes a promotion, so its callback never runs. */
  lemma {:induction false} RejectedIsNeverAnswered(s: State, ops: seq<Op>, id: nat)
    requires LegalRun(s, ops) && id <= s.host.nextId && id !in s.host.promotions
    ensures id !in Run(s, ops).host.promotions
    decreases |ops|
  {
    if ops != [] {
      StepEvolves(s, ops[0], id);
      RejectedIsNeverAnswered(Step(s, ops[0]), ops[1..], id);
    }
  }

  // ---------- Teardown ----------

  /** Where the session's destructor is in its fixed order, and what that order has achieved so far. */
  ghost predicate PlanInv(s: State) {
    && (s.plan == ORDER || s.plan == [ShutHost, JoinJobs] || s.plan == [JoinJobs] || s.plan == [])
    && (s.tearing <==> s.plan != ORDER)
    && (s.tearing ==> forall j :: j in s.jobs ==> s.jobs[j].cancelled)
    && (|s.plan| <= 1 ==> s.host.shuttingDown)
  }

  /** A job waits only for the callback of a call that was accepted. */
  ghost predicate WaitsInv(s: State) {
    forall j :: j in s.jobs && s.jobs[j].waitsFor.Some? ==> s.jobs[j].waitsFor.value in s.host.promotions
  }

  ghost predicate OrderInv(s: State) {
    PlanInv(s) && WaitsInv(s)
  }

  lemma TeardownKeepsPlan(s: State)
    requires PlanInv(s) && Enabled(s, Teardown)
    ensures PlanInv(Step(s, Teardown))
  {
    assert [CancelJobs, ShutHost, JoinJobs][1..] == [ShutHost, JoinJobs];
    assert [ShutHost, JoinJobs][1..] == [JoinJobs] && [JoinJobs][1..] == [];
  }

  lemma StepKeepsPlan(s: State, op: Op)
    requires PlanInv(s) && Enabled(s, op) && !op.Teardown?
    ensures PlanInv(Step(s, op))
  {
    SamePlan(s, op);
    if s.tearing { JobsStayCancelled(s, op); }
  }

  lemma SamePlan(s: State, op: Op)
    requires Enabled(s, op) && !op.Teardown?
    ensures Step(s, op).plan == s.plan && Step(s, op).tearing == s.tearing
    ensures s.host.shuttingDown ==> Step(s, op).host.shuttingDown
  {
    match op
    case Promote(_, _) =>
    case Process(_, _) =>
    case LoadFailed(_, _, _) =>
    case Issue(_) =>
    case LockFinish =>
    case CallBack =>
    case Committing(_, _) =>
    case Finished(_, _) =>
    case Shutdown =>
    case SweepCall(_) =>
    case StartJob(_) =>
    case ConcludeJob(_) =>
    case HoldBack(_, _) =>
    case EndJob(_) =>
  }

  /** Only the event loop starts a job, and the destructor runs outside it. */
  lemma JobsStayCancelled(s: State, op: Op)
    requires Enabled(s, op) && !op.Teardown? && s.tearing && forall j :: j in s.jobs ==> s.jobs[j].cancelled
    ensures forall j :: j in Step(s, op).jobs ==> Step(s, op).jobs[j].cancelled
  {
  }

  lemma OrderKept(s: State, op: Op)
    requires Inv(s) && OrderInv(s) && Enabled(s, op)
    ensures OrderInv(Step(s, op))
  {
    if op.Teardown? { TeardownKeepsPlan(s); } else { StepKeepsPlan(s, op); }
    var n := Step(s, op);
    forall j | j in n.jobs && n.jobs[j].waitsFor.Some? ensures n.jobs[j].waitsFor.value in n.host.promotions {
      StepEvolves(s, op, n.jobs[j].waitsFor.value);
    }
  }

  lemma {:induction false} RunKeepsOrder(s: State, ops: seq<Op>)
    requires Inv(s) && OrderInv(s) && LegalRun(s, ops)
    ensures Inv(Run(s, ops)) && OrderInv(Run(s, ops))
    decreases |ops|
  {
    if ops != [] {
      StepKeeps(s, ops[0]);
      OrderKept(s, ops[0]);
      RunKeepsOrder(Step(s, ops[0]), ops[1..]);
    }
  }

  /**
   In every run of the session, whenever its destructor is at the join no live job waits on an undelivered callback:
   each is cancelled and free to end, and a promotion tried now is rejected on the spot.
   */
  lemma JoinWaitsOnNoCallback(ops: seq<Op>)
    requires LegalRun(Initial(ORDER), ops)
    requires Run(Initial(ORDER), ops).gui.Idle? && Run(Initial(ORDER), ops).plan == [JoinJobs]
    ensures var s := Run(Initial(ORDER), ops);
      && (forall j :: j in s.jobs && !s.jobs[j].ended ==> s.jobs[j].cancelled && Enabled(s, EndJob(j)))
      && (forall request, posts :: !Accepts(s.host, request, posts))
  {
    InitialInv(ORDER);
    RunKeepsOrder(Initial(ORDER), ops);
    AtTheJoin(Run(Initial(ORDER), ops));
  }

  lemma AtTheJoin(s: State)
    requires Inv(s) && OrderInv(s) && s.gui.Idle? && s.plan == [JoinJobs]
    ensures forall j :: j in s.jobs && !s.jobs[j].ended ==> s.jobs[j].cancelled && Enabled(s, EndJob(j))
  {
    forall j | j in s.jobs && !s.jobs[j].ended ensures Enabled(s, EndJob(j)) {
      if s.jobs[j].waitsFor.Some? { assert PromotionInv(s, s.jobs[j].waitsFor.value); }
    }
  }

  ghost function Live(s: State): set<nat> {
    set j | j in s.jobs && !s.jobs[j].ended
  }

  lemma EndShrinks(s: State, j: nat)
    requires j in Live(s) && Enabled(s, EndJob(j))
    ensures |Live(Step(s, EndJob(j)))| < |Live(s)|
  {
    assert Live(s) == Live(Step(s, EndJob(j))) + {j};
  }

  lemma EndOneJob(s: State, j: nat)
    requires Inv(s) && OrderInv(s) && s.gui.Idle? && s.plan == [JoinJobs] && j in Live(s)
    ensures Enabled(s, EndJob(j)) && Inv(Step(s, EndJob(j))) && OrderInv(Step(s, EndJob(j)))
    ensures Step(s, EndJob(j)).gui.Idle? && Step(s, EndJob(j)).plan == [JoinJobs]
    ensures |Live(Step(s, EndJob(j)))| < |Live(s)|
  {
    AtTheJoin(s);
    StepKeeps(s, EndJob(j));
    OrderKept(s, EndJob(j));
    EndShrinks(s, j);
  }

  /** The join ends once the jobs take their own steps; nothing else is needed. */
  lemma {:induction false} JoinCompletes(s: State) returns (ops: seq<Op>)
    requires Inv(s) && OrderInv(s) && s.gui.Idle? && s.plan == [JoinJobs]
    ensures LegalRun(s, ops) && Run(s, ops).plan == []
    ensures forall op :: op in ops ==> op.EndJob? || op.Teardown?
    decreases |Live(s)|
  {
    if Live(s) == {} {
      assert forall j :: j in s.jobs ==> s.jobs[j].ended by {
        forall j | j in s.jobs ensures s.jobs[j].ended { assert j !in Live(s); }
      }
      ops := [Teardown];
      assert Run(Step(s, Teardown), ops[1..]) == Step(s, Teardown);
    } else {
      var j :| j in Live(s);
      EndOneJob(s, j);
      var rest := JoinCompletes(Step(s, EndJob(j)));
      ops := [EndJob(j)] + rest;
    }
  }

  /** The destructor runs to its end from any state its owner can call it in. */
  lemma DestructorCompletes(s: State) returns (ops: seq<Op>)
    requires Inv(s) && OrderInv(s) && EventLoop(s)
    ensures LegalRun(s, ops) && Run(s, ops).plan == []
    ensures forall op :: op in ops ==> op.Teardown? || op.SweepCall? || op.EndJob?
  {
    var s1 := Step(s, Teardown);
    StepKeeps(s, Teardown);
    OrderKept(s, Teardown);
    var s2 := Step(s1, Teardown);
    StepKeeps(s1, Teardown);
    OrderKept(s1, Teardown);
    var sweep := SweepCompletes(s2);
    var s3 := Run(s2, sweep);
    var join := JoinCompletes(s3);
    RunAppend(s2, sweep, join);
    ops := [Teardown] + ([Teardown] + (sweep + join));
    assert ops[1..] == [Teardown] + (sweep + join) && ops[1..][1..] == sweep + join;
  }

  /** shutdown's callback loop ends, in whatever order it visits the promotions. */
  lemma {:induction false} SweepCompletes(s: State) returns (ops: seq<Op>)
    requires Inv(s) && OrderInv(s) && (s.gui.Sweeping? || s.gui.Idle?)
    ensures LegalRun(s, ops) && Run(s, ops).gui.Idle? && Run(s, ops).plan == s.plan
    ensures Inv(Run(s, ops)) && OrderInv(Run(s, ops))
    ensures forall op :: op in ops ==> op.SweepCall?
    decreases if s.gui.Sweeping? then |s.gui.rest| else 0
  {
    if s.gui.Idle? {
      ops := [];
    } else {
      var p :| p in s.gui.rest;
      StepKeeps(s, SweepCall(p));
      OrderKept(s, SweepCall(p));
      assert s.gui.rest == (s.gui.rest - {p}) + {p};
      var rest := SweepCompletes(Step(s, SweepCall(p)));
      ops := [SweepCall(p)] + rest;
    }
  }

  // ---------- The reverse order deadlocks ----------

  const REVERSED := [CancelJobs, JoinJobs, ShutHost]

  /** The join has begun before shutdown, and job 0 holds its terminal back for a callback only shutdown can run. */
  predicate Stuck(s: State) {
    && s.tearing && s.gui.Idle? && s.plan == [JoinJobs, ShutHost]
    && 0 in s.jobs && s.jobs[0] == Job(true, Some(1), false)
    && 1 in s.host.promotions && 1 <= s.host.nextId && s.host.promotions[1].answers == []
  }

  lemma StuckStays(s: State, op: Op)
    requires Stuck(s) && Enabled(s, op)
    ensures Stuck(Step(s, op))
  {
  }

  lemma {:induction false} StuckForever(s: State, ops: seq<Op>)
    requires Stuck(s) && LegalRun(s, ops)
    ensures Stuck(Run(s, ops)) && !Enabled(Run(s, ops), Teardown)
    decreases |ops|
  {
    if ops != [] {
      StuckStays(s, ops[0]);
      StuckForever(Step(s, ops[0]), ops[1..]);
    }
  }

  const STUCKRUN := [StartJob(0), Promote(Request(true, true, 1, "f", "d"), true), HoldBack(0, 1), Teardown]

  lemma RunCons(s: State, op: Op, rest: seq<Op>)
    requires Enabled(s, op) && LegalRun(Step(s, op), rest)
    ensures LegalRun(s, [op] + rest) && Run(s, [op] + rest) == Run(Step(s, op), rest)
  {
    assert ([op] + rest)[1..] == rest;
  }

  /** Before the join: the call is accepted and the job holds its terminal back. */
  const HELDBACK :=
    Initial(REVERSED).(
      host := Host(false, 1, map[1 := Promotion(Request(true, true, 1, "f", "d"), false, "", false, [], None, false)],
                   {1}, map[], true),
      posted := [1], jobs := map[0 := Job(false, Some(1), false)])

  lemma HeldBackFollows()
    ensures LegalRun(Initial(REVERSED), STUCKRUN[..3]) && Run(Initial(REVERSED), STUCKRUN[..3]) == HELDBACK
  {
    var s1 := Step(Initial(REVERSED), STUCKRUN[0]);
    var s2 := Step(s1, STUCKRUN[1]);
    assert Step(s2, STUCKRUN[2]) == HELDBACK;
    RunCons(s2, STUCKRUN[2], []);
    RunCons(s1, STUCKRUN[1], [STUCKRUN[2]] + []);
    RunCons(Initial(REVERSED), STUCKRUN[0], [STUCKRUN[1]] + ([STUCKRUN[2]] + []));
    assert STUCKRUN[..3] == [STUCKRUN[0]] + ([STUCKRUN[1]] + ([STUCKRUN[2]] + []));
  }

  lemma HeldBackIsStuck()
    ensures LegalRun(HELDBACK, [Teardown]) && Stuck(Run(HELDBACK, [Teardown]))
  {
    assert REVERSED[1..] == [JoinJobs, ShutHost];
    RunCons(HELDBACK, Teardown, []);
    assert [Teardown] == [Teardown] + [];
  }

  lemma ReverseOrderIsStuck()
    ensures LegalRun(Initial(REVERSED), STUCKRUN) && Stuck(Run(Initial(REVERSED), STUCKRUN))
  {
    HeldBackFollows();
    HeldBackIsStuck();
    RunAppend(Initial(REVERSED), STUCKRUN[..3], [Teardown]);
    assert STUCKRUN == STUCKRUN[..3] + [Teardown];
  }

  /** Joining before the promotion host is shut down reaches a state from which no run ever finishes. */
  lemma ReverseOrderDeadlocks(more: seq<Op>)
    ensures LegalRun(Initial(REVERSED), STUCKRUN)
    ensures LegalRun(Run(Initial(REVERSED), STUCKRUN), more) ==>
      !Enabled(Run(Run(Initial(REVERSED), STUCKRUN), more), Teardown)
  {
    ReverseOrderIsStuck();
    if LegalRun(Run(Initial(REVERSED), STUCKRUN), more) {
      StuckForever(Run(Initial(REVERSED), STUCKRUN), more);
    }
  }
}
