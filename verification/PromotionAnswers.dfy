/**
 What a promotion is answered, over whole runs: the end of its load decides it, a commit that kept the dataset makes it
 succeed, and whatever refuses it says so.
 */
module PromotionAnswers {
  import opened Basics
  import opened Promotion
  import opened PromotionTheorems

  // ---------- The end of the load ----------

  /** What the answer must be when the load of promotion `q` has ended in `outcome`. */
  predicate Tells(a: Answer, q: Promotion, outcome: Outcome) {
    && (a.ok <==> outcome == Loaded && q.attached)
    && (!a.ok && q.reason != "" ==> a.message == q.reason)
    && (!a.ok && q.reason == "" && outcome == Cancelled ==> a.message == "the replacement load was cancelled")
    && (!a.ok && q.reason == "" && outcome == Failed ==> a.message == "the replacement load failed")
    && (!a.ok && q.reason == "" && outcome == Loaded ==>
          a.message == "the load committed without attaching the source record")
  }

  /** Promotion `p` is being answered with `a` or has been. */
  ghost predicate Deciding(s: State, p: nat, a: Answer) {
    && p in s.host.promotions
    && var q := s.host.promotions[p];
       || q.answers == [a]
       || (s.gui == Finishing(p, a) && !q.fired && q.answers == [])
       || (s.gui == Calling(p, a) && q.fired && q.answers == [])
  }

  lemma AnsweredStays(s: State, op: Op, p: nat, a: Answer)
    requires Inv(s) && Enabled(s, op) && p in s.host.promotions && s.host.promotions[p].answers == [a]
    ensures Deciding(Step(s, op), p, a)
  {
    assert LegalRun(Step(s, op), []);
    assert [op][1..] == [] && LegalRun(s, [op]) && Run(s, [op]) == Step(s, op);
    AnswersStand(s, [op], p);
  }

  /** While the GUI thread is inside finishPromotion only it and the plugin's threads take steps. */
  lemma DecisionStays(s: State, op: Op, p: nat, a: Answer)
    requires Inv(s) && Enabled(s, op) && Deciding(s, p, a) && s.host.promotions[p].answers == []
    ensures Deciding(Step(s, op), p, a)
  {
    match op
    case Promote(request, posts) => assert p <= s.host.nextId;
    case LockFinish =>
    case CallBack => assert [] + [a] == [a];
    case HoldBack(_, _) =>
    case EndJob(_) =>
  }

  lemma {:induction false} RunDecides(s: State, ops: seq<Op>, p: nat, a: Answer)
    requires Inv(s) && LegalRun(s, ops) && Deciding(s, p, a)
    ensures Deciding(Run(s, ops), p, a)
    decreases |ops|
  {
    if ops != [] {
      StepKeeps(s, ops[0]);
      if s.host.promotions[p].answers == [] {
        DecisionStays(s, ops[0], p, a);
      } else {
        AnsweredStays(s, ops[0], p, a);
      }
      RunDecides(Step(s, ops[0]), ops[1..], p, a);
    }
  }

  /** The promotion waits for the load of `ticket` and nobody has answered it. */
  predicate Waits(s: State, ticket: nat, p: nat) {
    EventLoop(s) && Hears(s.host, ticket) && s.host.byTicket[ticket] == p && !s.host.promotions[p].fired
  }

  /**
   From any reachable state: once the load of a waiting promotion has ended, every continuation in which the GUI thread
   is back in its event loop has given it exactly one answer, ok if and only if the load was loaded and the record
   attached, and no continuation ever gives it another.
   */
  lemma AnsweredAsItsLoadEnded(s: State, ticket: nat, outcome: Outcome, p: nat, later: seq<Op>) returns (a: Answer)
    requires Inv(s) && Waits(s, ticket, p) && LegalRun(Step(s, Finished(ticket, outcome)), later)
    ensures Tells(a, s.host.promotions[p], outcome)
    ensures var n := Run(Step(s, Finished(ticket, outcome)), later);
      && p in n.host.promotions && (n.host.promotions[p].answers == [] || n.host.promotions[p].answers == [a])
      && (n.gui.Idle? ==> n.host.promotions[p].answers == [a])
  {
    assert PromotionInv(s, p);
    a := Verdict(s.host.promotions[p], outcome);
    StepKeeps(s, Finished(ticket, outcome));
    RunDecides(Step(s, Finished(ticket, outcome)), later, p, a);
  }

  /** The shortest such run: the slot takes the lock and runs the callback. */
  lemma LoadedAndAttachedIsPromoted(s: State, ticket: nat, p: nat)
    requires Inv(s) && Waits(s, ticket, p) && s.host.promotions[p].attached
    ensures var ops := [Finished(ticket, Loaded)] + ([LockFinish] + ([CallBack] + []));
      && LegalRun(s, ops)
      && var n := Run(s, ops);
         && n.gui.Idle? && p in n.host.promotions
         && |n.host.promotions[p].answers| == 1 && n.host.promotions[p].answers[0].ok
  {
    assert PromotionInv(s, p);
    var f := Step(s, Finished(ticket, Loaded));
    var c := Step(f, LockFinish);
    RunCons(c, CallBack, []);
    RunCons(f, LockFinish, [CallBack] + []);
    RunCons(s, Finished(ticket, Loaded), [LockFinish] + ([CallBack] + []));
  }

  // ---------- The commit ----------

  /** `q` is the promotion `was` after a commit of its load. */
  predicate Committed(was: Promotion, q: Promotion, produced: set<nat>) {
    && q == was.(attached := q.attached, reason := q.reason)
    && (q.attached <==> was.attached || was.request.dataset in produced)
    && (if was.request.dataset in produced then q.reason == was.reason else q.reason != "")
  }

  /** A commit of a promotion's load attaches its record if the dataset was kept, and otherwise records why not. */
  lemma CommitTells(h: Host, ticket: nat, produced: set<nat>)
    requires Hears(h, ticket)
    ensures var p, n := h.byTicket[ticket], SeeCommit(h, ticket, produced);
      && p in n.promotions && Committed(h.promotions[p], n.promotions[p], produced)
      && forall r :: r in h.promotions && r != p ==> r in n.promotions && n.promotions[r] == h.promotions[r]
  {
  }

  // ---------- From the call to the answer ----------

  /** The GUI thread is idle, nothing is queued, and the host takes calls. */
  predicate Ready(s: State) {
    EventLoop(s) && s.posted == [] && !s.host.shuttingDown
  }

  /** An accepted call is the one queued and is open. */
  lemma CallIsQueued(s: State, request: Request)
    requires Inv(s) && Ready(s) && WellFormed(request)
    ensures var id, a := s.host.nextId + 1, Step(s, Promote(request, true));
      && Inv(a) && EventLoop(a) && a.posted == [id] && id in a.host.pending && id in a.host.promotions
      && a.host.promotions[id].request == request && !a.host.promotions[id].fired
      && a.host.observing && a.tickets == s.tickets
  {
    StepKeeps(s, Promote(request, true));
  }

  /** The queued call is issued and waits for the ticket it is given. */
  lemma QueuedIsIssued(a: State, id: nat, t: nat)
    requires Inv(a) && EventLoop(a) && a.posted == [id] && id in a.host.pending && id in a.host.promotions
    requires !a.host.promotions[id].fired && a.host.observing && t !in a.tickets
    ensures var b := Step(a, Process(true, true));
      && Enabled(b, Issue(Ticket(t)))
      && var n := Step(b, Issue(Ticket(t)));
         Inv(n) && Waits(n, t, id) && n.host.promotions[id].request == a.host.promotions[id].request
  {
    var b := Step(a, Process(true, true));
    StepKeeps(a, Process(true, true));
    assert b.gui == Issuing(id) && b.host == a.host;
    StepKeeps(b, Issue(Ticket(t)));
  }

  lemma PromotedAndIssued(s: State, request: Request, t: nat)
    requires Inv(s) && Ready(s) && WellFormed(request) && t !in s.tickets
    ensures var ops := [Promote(request, true)] + ([Process(true, true)] + ([Issue(Ticket(t))] + []));
      && LegalRun(s, ops)
      && var n := Run(s, ops);
         Inv(n) && Waits(n, t, s.host.nextId + 1) && n.host.promotions[s.host.nextId + 1].request == request
  {
    var a := Step(s, Promote(request, true));
    CallIsQueued(s, request);
    var b := Step(a, Process(true, true));
    QueuedIsIssued(a, s.host.nextId + 1, t);
    RunCons(b, Issue(Ticket(t)), []);
    RunCons(a, Process(true, true), [Issue(Ticket(t))] + []);
    RunCons(s, Promote(request, true), [Process(true, true)] + ([Issue(Ticket(t))] + []));
  }

  lemma CommittedIsAttached(s: State, ticket: nat, produced: set<nat>, p: nat)
    requires Inv(s) && Waits(s, ticket, p) && s.host.promotions[p].request.dataset in produced
    ensures var n := Step(s, Committing(ticket, produced));
      && Inv(n) && Waits(n, ticket, p) && n.host.promotions[p].attached
      && s.host.promotions[p].request.dataset in n.records && n.records[s.host.promotions[p].request.dataset] == p
  {
    StepKeeps(s, Committing(ticket, produced));
  }

  /**
   A promotion that goes well is answered ok: called, queued, issued under a fresh ticket, committed with its dataset
   kept, loaded, answered. The record attached to the dataset is its own.
   */
  lemma GoodPromotionSucceeds(s: State, request: Request, t: nat, produced: set<nat>) returns (ops: seq<Op>)
    requires Inv(s) && Ready(s) && WellFormed(request) && t !in s.tickets && request.dataset in produced
    ensures LegalRun(s, ops)
    ensures var n, p := Run(s, ops), s.host.nextId + 1;
      && n.gui.Idle? && p in n.host.promotions && n.host.promotions[p].attached
      && |n.host.promotions[p].answers| == 1 && n.host.promotions[p].answers[0].ok
  {
    var p := s.host.nextId + 1;
    PromotedAndIssued(s, request, t);
    var issue := [Promote(request, true)] + ([Process(true, true)] + ([Issue(Ticket(t))] + []));
    var n := Run(s, issue);
    CommittedIsAttached(n, t, produced, p);
    var finish := [Finished(t, Loaded)] + ([LockFinish] + ([CallBack] + []));
    LoadedAndAttachedIsPromoted(Step(n, Committing(t, produced)), t, p);
    RunCons(n, Committing(t, produced), finish);
    RunAppend(s, issue, [Committing(t, produced)] + finish);
    RunKeeps(n, [Committing(t, produced)] + finish);
    OkStaysAttached(Run(n, [Committing(t, produced)] + finish), p);
    ops := issue + ([Committing(t, produced)] + finish);
  }

  lemma OkStaysAttached(s: State, p: nat)
    requires Inv(s) && p in s.host.promotions && |s.host.promotions[p].answers| == 1 && s.host.promotions[p].answers[0].ok
    ensures s.host.promotions[p].attached
  {
    assert PromotionInv(s, p);
  }
}
