/** Which accepted promotions are answered once nothing is under way any more: all but those whose enqueue threw. */
module PromotionStranding {
  import opened Basics
  import opened Promotion
  import opened PromotionTheorems

  /** A ticket the loader has not ended yet is the promotion's. */
  predicate Ticketed(s: State, p: nat) {
    exists t :: t in s.host.byTicket && s.host.byTicket[t] == p
  }

  predicate InHand(gui: Gui, p: nat) {
    (gui.Issuing? || gui.Finishing? || gui.Calling?) && gui.p == p
  }

  /** A promotion is queued, being issued, or past that; a stranded one is none of them and nobody has decided it. */
  ghost predicate Apart(s: State, p: nat)
    requires p in s.host.promotions
  {
    var q := s.host.promotions[p];
    && (p in s.posted ==> !q.stranded && !Ticketed(s, p) && s.gui != Issuing(p))
    && (s.gui == Issuing(p) ==> !Ticketed(s, p))
    && (InHand(s.gui, p) || Ticketed(s, p) ==> !q.stranded)
    && (q.stranded && q.fired ==> s.host.shuttingDown)
  }

  ghost predicate QueueInv(s: State) {
    NoRepeats(s.posted) && forall p :: p in s.posted ==> p in s.host.promotions
  }

  ghost predicate StrandInv(s: State) {
    QueueInv(s) && forall p :: p in s.host.promotions ==> Apart(s, p)
  }

  /** A step that queues, issues and strands nothing and gives no ticket. */
  lemma SamePlacesKeeps(s: State, n: State)
    requires StrandInv(s) && n.posted == s.posted && n.host.promotions.Keys == s.host.promotions.Keys
    requires forall t :: t in n.host.byTicket ==> t in s.host.byTicket && n.host.byTicket[t] == s.host.byTicket[t]
    requires s.host.shuttingDown ==> n.host.shuttingDown
    requires forall p :: p in s.host.promotions ==>
      && (InHand(n.gui, p) ==> !n.gui.Issuing? || s.gui == n.gui)
      && (InHand(n.gui, p) ==> InHand(s.gui, p) || Ticketed(s, p))
      && n.host.promotions[p].stranded == s.host.promotions[p].stranded
      && (n.host.promotions[p].fired ==> s.host.promotions[p].fired || InHand(s.gui, p) || n.host.shuttingDown)
    ensures StrandInv(n)
  {
    forall p | p in n.host.promotions ensures Apart(n, p) {
      assert Apart(s, p);
      assert Ticketed(n, p) ==> Ticketed(s, p);
    }
  }

  lemma NewIsApart(s: State)
    requires Inv(s) && StrandInv(s)
    ensures var id := s.host.nextId + 1;
      id !in s.host.promotions && id !in s.posted && !Ticketed(s, id) && !InHand(s.gui, id)
  {
  }

  lemma PushQueue(s: State, id: nat)
    requires NoRepeats(s.posted) && id !in s.posted
    ensures NoRepeats(s.posted + [id]) && forall p :: p in s.posted + [id] <==> p in s.posted || p == id
  {
  }

  lemma PromoteKeepsApart(s: State, request: Request, posts: bool)
    requires Inv(s) && StrandInv(s)
    ensures StrandInv(PromoteStep(s, request, posts))
  {
    var n := PromoteStep(s, request, posts);
    var id := s.host.nextId + 1;
    NewIsApart(s);
    PushQueue(s, id);
    forall p | p in n.host.promotions ensures Apart(n, p) {
      assert Ticketed(n, p) == Ticketed(s, p);
      if p != id { assert Apart(s, p); }
    }
  }

  lemma PopQueue(posted: seq<nat>)
    requires NoRepeats(posted) && posted != []
    ensures NoRepeats(posted[1..]) && posted[0] !in posted[1..]
    ensures forall p :: p in posted <==> p == posted[0] || p in posted[1..]
  {
    assert posted == [posted[0]] + posted[1..];
    forall i, j | 0 <= i < j < |posted[1..]| ensures posted[1..][i] != posted[1..][j] {
      assert posted[i + 1] != posted[j + 1];
    }
  }

  lemma ProcessKeepsApart(s: State, owned: bool, loaderAlive: bool)
    requires Inv(s) && StrandInv(s) && EventLoop(s) && s.posted != []
    ensures StrandInv(ProcessStep(s, owned, loaderAlive))
  {
    var n := ProcessStep(s, owned, loaderAlive);
    PopQueue(s.posted);
    forall p | p in n.host.promotions ensures Apart(n, p) {
      assert Apart(s, p);
      assert Ticketed(n, p) == Ticketed(s, p);
    }
  }

  lemma IssueKeepsApart(s: State, reply: Reply)
    requires Inv(s) && StrandInv(s) && s.gui.Issuing?
    ensures StrandInv(IssueStep(s, reply))
  {
    var n := IssueStep(s, reply);
    assert Apart(s, s.gui.p) && PromotionInv(s, s.gui.p);
    forall p | p in n.host.promotions ensures Apart(n, p) {
      assert Apart(s, p);
      if Ticketed(n, p) && p != s.gui.p {
        var t :| t in n.host.byTicket && n.host.byTicket[t] == p;
        assert t in s.host.byTicket && s.host.byTicket[t] == p;
      }
    }
  }

  /** Recording a reason or an attachment in one promotion moves none. */
  lemma NoteKeepsApart(s: State, k: nat, q: Promotion, records: map<nat, nat>)
    requires StrandInv(s) && k in s.host.promotions
    requires q == s.host.promotions[k].(reason := q.reason, attached := q.attached)
    ensures StrandInv(s.(host := Update(s.host, k, q), records := records))
  {
    var n := s.(host := Update(s.host, k, q), records := records);
    forall p | p in n.host.promotions ensures Apart(n, p) {
      assert Apart(s, p);
      assert Ticketed(n, p) == Ticketed(s, p);
    }
  }

  lemma LoadFailedKeepsApart(s: State, path: string, reason: string, current: nat)
    requires StrandInv(s) && (s.gui.Issuing? ==> s.gui.p in s.host.promotions)
    ensures StrandInv(LoadFailedStep(s, path, reason, current))
  {
    var k := if s.gui.Issuing? then s.gui.p
             else if current in s.host.byTicket then s.host.byTicket[current] else 0;
    if k in s.host.promotions {
      NoteKeepsApart(s, k, s.host.promotions[k].(reason := reason), s.records);
    }
  }

  lemma CommitKeepsApart(s: State, ticket: nat, produced: set<nat>)
    requires StrandInv(s)
    ensures StrandInv(CommitStep(s, ticket, produced))
  {
    if Hears(s.host, ticket) {
      var k := s.host.byTicket[ticket];
      NoteKeepsApart(s, k, NoteCommit(s.host.promotions[k], produced), CommitStep(s, ticket, produced).records);
    }
  }

  lemma FinishedKeepsApart(s: State, ticket: nat, outcome: Outcome)
    requires Inv(s) && StrandInv(s) && EventLoop(s)
    ensures StrandInv(FinishedStep(s, ticket, outcome))
  {
    SamePlacesKeeps(s, FinishedStep(s, ticket, outcome));
  }

  lemma LockKeepsApart(s: State)
    requires Inv(s) && StrandInv(s) && s.gui.Finishing?
    ensures StrandInv(LockStep(s))
  {
    SamePlacesKeeps(s, LockStep(s));
  }

  lemma CallKeepsApart(s: State)
    requires Inv(s) && StrandInv(s) && s.gui.Calling?
    ensures StrandInv(CallStep(s))
  {
    SamePlacesKeeps(s, CallStep(s));
  }

  lemma SweepKeepsApart(s: State, p: nat)
    requires Inv(s) && StrandInv(s) && s.gui.Sweeping? && p in s.gui.rest && p in s.host.promotions
    ensures StrandInv(SweepStep(s, p))
  {
    SamePlacesKeeps(s, SweepStep(s, p));
  }

  lemma ShutKeepsApart(s: State)
    requires StrandInv(s) && s.gui.Idle?
    ensures StrandInv(ShutStep(s))
  {
    SamePlacesKeeps(s, ShutStep(s));
  }

  lemma JobsKeepApart(s: State, tearing: bool, plan: seq<Phase>, jobs: map<nat, Job>)
    requires StrandInv(s)
    ensures StrandInv(s.(tearing := tearing, plan := plan, jobs := jobs))
  {
    SamePlacesKeeps(s, s.(tearing := tearing, plan := plan, jobs := jobs));
  }

  lemma TeardownKeepsApart(s: State)
    requires StrandInv(s) && s.gui.Idle? && s.plan != []
    ensures StrandInv(TeardownStep(s))
  {
    JobsKeepApart(s, true, s.plan[1..], TeardownStep(s).jobs);
    if s.plan[0] == ShutHost {
      JobsKeepApart(s, true, s.plan[1..], s.jobs);
      ShutKeepsApart(s.(tearing := true, plan := s.plan[1..]));
    }
  }

  lemma StepKeepsApart(s: State, op: Op)
    requires Inv(s) && StrandInv(s) && Enabled(s, op)
    ensures StrandInv(Step(s, op))
  {
    match op
    case Promote(request, posts) => PromoteKeepsApart(s, request, posts);
    case Process(owned, alive) => ProcessKeepsApart(s, owned, alive);
    case Issue(reply) => IssueKeepsApart(s, reply);
    case LoadFailed(path, reason, current) => LoadFailedKeepsApart(s, path, reason, current);
    case Committing(ticket, produced) => CommitKeepsApart(s, ticket, produced);
    case LockFinish => LockKeepsApart(s);
    case CallBack => CallKeepsApart(s);
    case Finished(ticket, outcome) => FinishedKeepsApart(s, ticket, outcome);
    case SweepCall(p) => SweepKeepsApart(s, p);
    case Shutdown => ShutKeepsApart(s);
    case Teardown => TeardownKeepsApart(s);
    case StartJob(_) => JobsKeepApart(s, s.tearing, s.plan, Step(s, op).jobs);
    case ConcludeJob(_) => JobsKeepApart(s, s.tearing, s.plan, Step(s, op).jobs);
    case HoldBack(_, _) => JobsKeepApart(s, s.tearing, s.plan, Step(s, op).jobs);
    case EndJob(_) => JobsKeepApart(s, s.tearing, s.plan, Step(s, op).jobs);
  }

  lemma {:induction false} RunKeepsApart(s: State, ops: seq<Op>)
    requires Inv(s) && StrandInv(s) && LegalRun(s, ops)
    ensures Inv(Run(s, ops)) && StrandInv(Run(s, ops))
    decreases |ops|
  {
    if ops != [] {
      StepKeeps(s, ops[0]);
      StepKeepsApart(s, ops[0]);
      RunKeepsApart(Step(s, ops[0]), ops[1..]);
    }
  }

  /**
   Given that the loader ends every ticket it gave out: with nothing queued and no load in flight, an accepted call has
   been answered, exactly once, if and only if its enqueue did not throw or the host has been shut down.
   */
  lemma DrainedAnswersExactly(plan: seq<Phase>, ops: seq<Op>, p: nat)
    requires LegalRun(Initial(plan), ops)
    requires var s := Run(Initial(plan), ops);
      s.gui.Idle? && s.posted == [] && s.host.byTicket == map[] && p in s.host.promotions
    ensures var s := Run(Initial(plan), ops);
      && |s.host.promotions[p].answers| <= 1
      && (|s.host.promotions[p].answers| == 1 <==> !s.host.promotions[p].stranded || s.host.shuttingDown)
  {
    InitialInv(plan);
    RunKeepsApart(Initial(plan), ops);
    var s := Run(Initial(plan), ops);
    assert PromotionInv(s, p) && Apart(s, p);
  }

  /** An enqueue that throws leaves its promotion without an answer until shutdown. */
  lemma ThrowingEnqueueStrands()
    ensures var request := Request(true, true, 1, "f", "d");
      var ops := [Promote(request, true), Process(true, true), Issue(Threw)];
      && LegalRun(Initial(ORDER), ops)
      && var s := Run(Initial(ORDER), ops);
         s.gui.Idle? && s.posted == [] && s.host.byTicket == map[] && 1 in s.host.pending
  {
    var request := Request(true, true, 1, "f", "d");
    var ops := [Promote(request, true), Process(true, true), Issue(Threw)];
    var s := Initial(ORDER);
    var s1 := Step(s, ops[0]);
    assert ops[1..] == [Process(true, true), Issue(Threw)] && ops[1..][1..] == [Issue(Threw)];
    var s2 := Step(s1, Process(true, true));
    assert s2.gui == Issuing(1) && Enabled(s2, Issue(Threw));
    assert [Issue(Threw)][1..] == [];
    assert Run(s2, [Issue(Threw)]) == Step(s2, Issue(Threw));
  }
}
