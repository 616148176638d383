/**
 Source promotion and the teardown of a provider session, as interleaved steps. Plugin threads call
 promote_to_file_source at any time; the GUI thread processes queued promotions, hears the loader's signals and runs
 shutdown, and lets go of the mutex between deciding an answer and delivering it. Import jobs may hold back their
 terminal until the callback of an accepted promotion has arrived.
 */
module Promotion {
  import opened Basics

  datatype Request = Request(hasCallback: bool, wholeV1: bool, dataset: nat, path: string, descriptor: string)

  datatype Answer = Answer(ok: bool, message: string)

  /** One accepted call. `answers`, `ticket` and `stranded` are history: callbacks run, load ticket, enqueue threw. */
  datatype Promotion = Promotion(
    request: Request, fired: bool, reason: string, attached: bool,
    answers: seq<Answer>, ticket: Option<nat>, stranded: bool)

  datatype Host = Host(
    shuttingDown: bool,
    nextId: nat,
    promotions: map<nat, Promotion>,
    pending: set<nat>,
    byTicket: map<nat, nat>,
    observing: bool)

  const FRESH := Host(false, 0, map[], {}, map[], true)

  // ---------- The host's own steps ----------

  predicate WellFormed(request: Request) {
    request.hasCallback && request.wholeV1 && request.dataset != 0 && request.path != ""
  }

  /** The call is accepted; `posts` says whether the GUI call could be queued. */
  predicate Accepts(h: Host, request: Request, posts: bool) {
    WellFormed(request) && !h.shuttingDown && posts
  }

  /** The admission section of onPromote. A failing post gives the id up without accepting the call. */
  function Admit(h: Host, request: Request, posts: bool): Host {
    if !WellFormed(request) || h.shuttingDown then h
    else if !posts then h.(nextId := h.nextId + 1)
    else
      var id := h.nextId + 1;
      h.(nextId := id, pending := h.pending + {id},
         promotions := h.promotions[id := Promotion(request, false, "", false, [], None, false)])
  }

  function Update(h: Host, p: nat, q: Promotion): Host {
    h.(promotions := h.promotions[p := q])
  }

  /** The host still observes the loader and the ticket is one of its promotions. */
  predicate Hears(h: Host, ticket: nat) {
    h.observing && ticket in h.byTicket && h.byTicket[ticket] in h.promotions
  }

  /** loadCommitting: attach the record when the commit kept the dataset. */
  function NoteCommit(q: Promotion, produced: set<nat>): Promotion {
    if q.request.dataset in produced then q.(attached := true)
    else q.(reason := "the committed load did not preserve the dataset")
  }

  function SeeCommit(h: Host, ticket: nat, produced: set<nat>): Host {
    if !Hears(h, ticket) then h
    else Update(h, h.byTicket[ticket], NoteCommit(h.promotions[h.byTicket[ticket]], produced))
  }

  /** fileLoadFailed outside loadFileTicketed: the reason goes to the promotion of the loader's current ticket. */
  function SeeFailure(h: Host, path: string, reason: string, current: nat): Host {
    if !Hears(h, current) then h
    else
      var p := h.byTicket[current];
      var q := h.promotions[p];
      if q.request.path == path then Update(h, p, q.(reason := reason)) else h
  }

  datatype Outcome = Loaded | Failed | Cancelled

  /** The answer loadFinished leads to. */
  function Verdict(q: Promotion, outcome: Outcome): Answer {
    if outcome == Loaded && q.attached then Answer(true, "promoted")
    else if q.reason != "" then Answer(false, q.reason)
    else Answer(false, match outcome
                       case Cancelled => "the replacement load was cancelled"
                       case Loaded => "the load committed without attaching the source record"
                       case Failed => "the replacement load failed")
  }

  /** The locked part of finishPromotion. */
  function Claim(h: Host, p: nat): Host
    requires p in h.promotions
  {
    if h.promotions[p].fired then h
    else Update(h, p, h.promotions[p].(fired := true)).(pending := h.pending - {p})
  }

  function Deliver(h: Host, p: nat, answer: Answer): Host
    requires p in h.promotions
  {
    Update(h, p, h.promotions[p].(answers := h.promotions[p].answers + [answer]))
  }

  function Unfired(h: Host): set<nat> {
    set p | p in h.pending && p in h.promotions && !h.promotions[p].fired
  }

  /** The locked part of shutdown and the disconnect after it; the callbacks for Unfired(h) come next. */
  function CloseIntake(h: Host): Host {
    if h.shuttingDown then h
    else
      h.(shuttingDown := true, pending := {}, byTicket := map[], observing := false,
         promotions := map p | p in h.promotions ::
             if p in Unfired(h) then h.promotions[p].(fired := true) else h.promotions[p])
  }

  const CLOSING := Answer(false, "the promotion host is shutting down")

  // ---------- The interleaved system ----------

  datatype Gui =
    | Idle
    | Issuing(p: nat)                       // inside loadFileTicketed
    | Finishing(p: nat, answer: Answer)     // finishPromotion called, lock not taken yet
    | Calling(p: nat, answer: Answer)       // claimed, result_cb not run yet
    | Sweeping(rest: set<nat>)              // shutdown's callback loop

  /** What loadFileTicketed did. */
  datatype Reply = Ticket(t: nat) | Rejected | Threw

  datatype Job = Job(cancelled: bool, waitsFor: Option<nat>, ended: bool)

  datatype Phase = CancelJobs | ShutHost | JoinJobs

  datatype State = State(
    host: Host,
    posted: seq<nat>,              // queued processPromotion calls
    gui: Gui,
    tickets: set<nat>,             // every ticket the loader has given out
    records: map<nat, nat>,        // dataset -> promotion whose record it carries
    jobs: map<nat, Job>,
    tearing: bool,                 // the session's destructor is running
    plan: seq<Phase>)              // what it still has to do

  function Initial(plan: seq<Phase>): State {
    State(FRESH, [], Idle, {}, map[], map[], false, plan)
  }

  /** The order of the session's destructor. */
  const ORDER := [CancelJobs, ShutHost, JoinJobs]

  datatype Op =
    | Promote(request: Request, posts: bool)
    | Process(owned: bool, loaderAlive: bool)
    | LoadFailed(path: string, reason: string, current: nat)
    | Issue(reply: Reply)
    | LockFinish
    | CallBack
    | Committing(ticket: nat, produced: set<nat>)
    | Finished(ticket: nat, outcome: Outcome)
    | Shutdown
    | SweepCall(p: nat)
    | StartJob(job: nat)
    | ConcludeJob(job: nat)
    | Teardown
    | HoldBack(job: nat, p: nat)
    | EndJob(job: nat)

  /** The callback of `p` has run. */
  predicate Answered(s: State, p: nat) {
    p in s.host.promotions && s.host.promotions[p].answers != []
  }

  predicate Blocked(s: State, j: nat)
    requires j in s.jobs
  {
    s.jobs[j].waitsFor.Some? && !Answered(s, s.jobs[j].waitsFor.value)
  }

  predicate EventLoop(s: State) {
    s.gui.Idle? && !s.tearing
  }

  predicate Enabled(s: State, op: Op) {
    match op
    case Promote(_, _) => true
    case Process(_, _) => EventLoop(s) && s.posted != []
    case LoadFailed(_, _, _) => EventLoop(s) || (s.gui.Issuing? && s.gui.p in s.host.promotions)
    case Issue(reply) => s.gui.Issuing? && s.gui.p in s.host.promotions && (reply.Ticket? ==> reply.t !in s.tickets)
    case LockFinish => s.gui.Finishing? && s.gui.p in s.host.promotions
    case CallBack => s.gui.Calling? && s.gui.p in s.host.promotions
    case Committing(_, _) => EventLoop(s)
    case Finished(_, _) => EventLoop(s)
    case Shutdown => EventLoop(s)
    case SweepCall(p) => s.gui.Sweeping? && p in s.gui.rest && p in s.host.promotions
    case StartJob(j) => EventLoop(s) && j !in s.jobs
    case ConcludeJob(j) => EventLoop(s) && j in s.jobs && s.jobs[j].ended
    case Teardown =>
      s.gui.Idle? && s.plan != [] && (s.plan[0] == JoinJobs ==> forall j :: j in s.jobs ==> s.jobs[j].ended)
    case HoldBack(j, p) =>
      j in s.jobs && !s.jobs[j].ended && s.jobs[j].waitsFor.None? && p in s.host.promotions
    case EndJob(j) => j in s.jobs && !s.jobs[j].ended && !Blocked(s, j)
  }

  function PromoteStep(s: State, request: Request, posts: bool): State {
    var n := s.(host := Admit(s.host, request, posts));
    if Accepts(s.host, request, posts) then n.(posted := s.posted + [n.host.nextId]) else n
  }

  function ProcessStep(s: State, owned: bool, loaderAlive: bool): State
    requires s.posted != []
  {
    var p := s.posted[0];
    var n := s.(posted := s.posted[1..]);
    if p !in s.host.pending then n
    else if !owned then n.(gui := Finishing(p, Answer(false, "the dataset was not produced by this plugin's ingest")))
    else if !loaderAlive then n.(gui := Finishing(p, Answer(false, "the file loader was destroyed")))
    else n.(gui := Issuing(p))
  }

  function IssueStep(s: State, reply: Reply): State
    requires s.gui.Issuing? && s.gui.p in s.host.promotions
  {
    var p := s.gui.p;
    var q := s.host.promotions[p];
    match reply
    case Ticket(t) =>
      s.(gui := Idle, tickets := s.tickets + {t},
         host := Update(s.host, p, q.(ticket := Some(t))).(byTicket := s.host.byTicket[t := p]))
    case Rejected =>
      s.(gui := Finishing(p, Answer(false, if q.reason == "" then "the file loader rejected the request" else q.reason)))
    case Threw => s.(gui := Idle, host := Update(s.host, p, q.(stranded := true)))
  }

  function LockStep(s: State): State
    requires s.gui.Finishing? && s.gui.p in s.host.promotions
  {
    s.(host := Claim(s.host, s.gui.p),
       gui := if s.host.promotions[s.gui.p].fired then Idle else Calling(s.gui.p, s.gui.answer))
  }

  function CallStep(s: State): State
    requires s.gui.Calling? && s.gui.p in s.host.promotions
  {
    s.(host := Deliver(s.host, s.gui.p, s.gui.answer), gui := Idle)
  }

  function SweepStep(s: State, p: nat): State
    requires s.gui.Sweeping? && p in s.gui.rest && p in s.host.promotions
  {
    s.(host := Deliver(s.host, p, CLOSING), gui := if s.gui.rest == {p} then Idle else Sweeping(s.gui.rest - {p}))
  }

  function FinishedStep(s: State, ticket: nat, outcome: Outcome): State {
    var h := s.host;
    if !Hears(h, ticket) then s
    else
      var p := h.byTicket[ticket];
      s.(host := h.(byTicket := h.byTicket - {ticket}), gui := Finishing(p, Verdict(h.promotions[p], outcome)))
  }

  function CommitStep(s: State, ticket: nat, produced: set<nat>): State {
    var h := s.host;
    s.(host := SeeCommit(h, ticket, produced),
       records := if Hears(h, ticket) && h.promotions[h.byTicket[ticket]].request.dataset in produced
                  then s.records[h.promotions[h.byTicket[ticket]].request.dataset := h.byTicket[ticket]]
                  else s.records)
  }

  function ShutStep(s: State): State {
    if s.host.shuttingDown then s
    else
      s.(host := CloseIntake(s.host), gui := if Unfired(s.host) == {} then Idle else Sweeping(Unfired(s.host)))
  }

  function TeardownStep(s: State): State
    requires s.plan != []
  {
    var n := s.(tearing := true, plan := s.plan[1..]);
    match s.plan[0]
    case CancelJobs => n.(jobs := map j | j in s.jobs :: s.jobs[j].(cancelled := true))
    case ShutHost => ShutStep(n)
    case JoinJobs => n.(jobs := map[])
  }

  function LoadFailedStep(s: State, path: string, reason: string, current: nat): State
    requires s.gui.Issuing? ==> s.gui.p in s.host.promotions
  {
    if s.gui.Issuing? then s.(host := Update(s.host, s.gui.p, s.host.promotions[s.gui.p].(reason := reason)))
    else s.(host := SeeFailure(s.host, path, reason, current))
  }

  function Step(s: State, op: Op): State
    requires Enabled(s, op)
  {
    match op
    case Promote(request, posts) => PromoteStep(s, request, posts)
    case Process(owned, alive) => ProcessStep(s, owned, alive)
    case LoadFailed(path, reason, current) => LoadFailedStep(s, path, reason, current)
    case Issue(reply) => IssueStep(s, reply)
    case LockFinish => LockStep(s)
    case CallBack => CallStep(s)
    case Committing(ticket, produced) => CommitStep(s, ticket, produced)
    case Finished(ticket, outcome) => FinishedStep(s, ticket, outcome)
    case Shutdown => ShutStep(s)
    case SweepCall(p) => SweepStep(s, p)
    case StartJob(j) => s.(jobs := s.jobs[j := Job(false, None, false)])
    case ConcludeJob(j) => s.(jobs := s.jobs - {j})
    case Teardown => TeardownStep(s)
    case HoldBack(j, p) => s.(jobs := s.jobs[j := s.jobs[j].(waitsFor := Some(p))])
    case EndJob(j) => s.(jobs := s.jobs[j := s.jobs[j].(ended := true)])
  }

  predicate LegalRun(s: State, ops: seq<Op>)
    decreases |ops|
  {
    ops == [] || (Enabled(s, ops[0]) && LegalRun(Step(s, ops[0]), ops[1..]))
  }

  function Run(s: State, ops: seq<Op>): State
    requires LegalRun(s, ops)
    decreases |ops|
  {
    if ops == [] then s else Run(Step(s, ops[0]), ops[1..])
  }

  // ---------- Invariant ----------

  /** The callback of `p` is decided and bound to run on the GUI thread. */
  predicate Owed(s: State, p: nat) {
    (s.gui.Calling? && s.gui.p == p) || (s.gui.Sweeping? && p in s.gui.rest)
  }

  /** Something still has to happen that decides the answer of `p`. */
  predicate Tracked(s: State, p: nat)
    requires p in s.host.promotions
  {
    var q := s.host.promotions[p];
    || p in s.posted || q.stranded
    || ((s.gui.Issuing? || s.gui.Finishing?) && s.gui.p == p)
    || (q.ticket.Some? && q.ticket.value in s.host.byTicket && s.host.byTicket[q.ticket.value] == p)
  }

  predicate PromotionInv(s: State, p: nat)
    requires p in s.host.promotions
  {
    var q := s.host.promotions[p];
    && (p in s.host.pending <==> !q.fired)
    && |q.answers| <= 1
    && (q.answers == [] <==> !q.fired || Owed(s, p))
    && (q.answers != [] && q.answers[0].ok ==> q.attached)
    && (!q.fired ==> Tracked(s, p))
  }

  predicate GuiInv(s: State) {
    && (s.gui.Issuing? || s.gui.Finishing? || s.gui.Calling? ==> s.gui.p in s.host.promotions && !s.tearing)
    && (s.gui.Issuing? ==> !s.host.shuttingDown && !s.host.promotions[s.gui.p].fired)
    && (s.gui.Calling? ==> s.host.promotions[s.gui.p].fired)
    && ((s.gui.Finishing? || s.gui.Calling?) && s.gui.answer.ok ==> s.host.promotions[s.gui.p].attached)
    && (s.gui.Sweeping? ==> s.gui.rest != {} && s.gui.rest <= s.host.promotions.Keys)
    && (s.gui.Sweeping? ==> forall p :: p in s.gui.rest ==> s.host.promotions[p].fired)
  }

  predicate SetsInv(s: State) {
    && s.host.pending <= s.host.promotions.Keys
    && (forall p :: p in s.host.promotions ==> 1 <= p <= s.host.nextId)
    && s.host.byTicket.Keys <= s.tickets
    && s.host.observing == !s.host.shuttingDown
    && (s.host.shuttingDown ==> s.host.pending == {} && s.host.byTicket == map[])
  }

  predicate TicketsInv(s: State) {
    forall t :: t in s.host.byTicket ==> s.host.byTicket[t] in s.host.promotions
  }

  ghost predicate Promotions(s: State) {
    forall p :: p in s.host.promotions ==> PromotionInv(s, p)
  }

  ghost predicate Inv(s: State) {
    GuiInv(s) && SetsInv(s) && TicketsInv(s) && Promotions(s)
  }

  lemma PromoteKeeps(s: State, request: Request, posts: bool)
    requires Inv(s)
    ensures Inv(PromoteStep(s, request, posts))
  {
    var n := PromoteStep(s, request, posts);
    assert SetsInv(n) && TicketsInv(n);
    if Accepts(s.host, request, posts) {
      var id := s.host.nextId + 1;
      assert n.posted == s.posted + [id] && id !in s.host.promotions;
      forall p | p in n.host.promotions ensures PromotionInv(n, p) {
        if p == id { assert n.posted[|s.posted|] == id; } else { assert PromotionInv(s, p); }
      }
    } else {
      forall p | p in n.host.promotions ensures PromotionInv(n, p) { assert PromotionInv(s, p); }
    }
  }

  /** The GUI thread takes the next queued call and starts on its promotion, or drops it once it is answered. */
  lemma PopKeeps(s: State, gui: Gui)
    requires Inv(s) && EventLoop(s) && s.posted != []
    requires var p := s.posted[0];
      || (gui == Idle && p !in s.host.pending)
      || (gui == Issuing(p) && p in s.host.pending)
      || (gui.Finishing? && gui.p == p && p in s.host.pending && !gui.answer.ok)
    ensures Inv(s.(posted := s.posted[1..], gui := gui))
  {
    var n := s.(posted := s.posted[1..], gui := gui);
    if s.posted[0] in s.host.promotions { assert PromotionInv(s, s.posted[0]); }
    assert GuiInv(n) && SetsInv(n) && TicketsInv(n);
    forall p | p in n.host.promotions ensures PromotionInv(n, p) {
      assert PromotionInv(s, p);
      assert p in s.posted <==> p == s.posted[0] || p in n.posted;
    }
  }

  lemma ProcessKeeps(s: State, owned: bool, loaderAlive: bool)
    requires Inv(s) && EventLoop(s) && s.posted != []
    ensures Inv(ProcessStep(s, owned, loaderAlive))
  {
    PopKeeps(s, ProcessStep(s, owned, loaderAlive).gui);
  }

  /** Recording a reason or an attachment in one promotion concerns nothing else. */
  lemma NoteKeeps(s: State, n: State, k: nat, q: Promotion)
    requires Inv(s) && k in s.host.promotions
    requires n == s.(host := Update(s.host, k, q), records := n.records)
    requires q == s.host.promotions[k].(reason := q.reason, attached := q.attached)
    requires s.host.promotions[k].attached ==> q.attached
    ensures Inv(n)
  {
    forall p | p in n.host.promotions ensures PromotionInv(n, p) { assert PromotionInv(s, p); }
  }

  lemma LoadFailedKeeps(s: State, path: string, reason: string, current: nat)
    requires Inv(s) && (s.gui.Issuing? ==> s.gui.p in s.host.promotions)
    ensures Inv(LoadFailedStep(s, path, reason, current))
  {
    var n := LoadFailedStep(s, path, reason, current);
    var k := if s.gui.Issuing? then s.gui.p
             else if current in s.host.byTicket then s.host.byTicket[current] else 0;
    if n != s {
      NoteKeeps(s, n, k, n.host.promotions[k]);
    }
  }

  lemma CommittingKeeps(s: State, ticket: nat, produced: set<nat>)
    requires Inv(s)
    ensures Inv(CommitStep(s, ticket, produced))
  {
    if Hears(s.host, ticket) {
      var k := s.host.byTicket[ticket];
      NoteKeeps(s, CommitStep(s, ticket, produced), k, NoteCommit(s.host.promotions[k], produced));
    }
  }

  lemma IssueKeeps(s: State, reply: Reply)
    requires Inv(s) && s.gui.Issuing? && (reply.Ticket? ==> reply.t !in s.tickets)
    ensures Inv(IssueStep(s, reply))
  {
    var n := IssueStep(s, reply);
    assert PromotionInv(s, s.gui.p);
    forall p | p in n.host.promotions ensures PromotionInv(n, p) { assert PromotionInv(s, p); }
  }

  lemma FinishedKeeps(s: State, ticket: nat, outcome: Outcome)
    requires Inv(s) && EventLoop(s)
    ensures Inv(FinishedStep(s, ticket, outcome))
  {
    var n := FinishedStep(s, ticket, outcome);
    forall p | p in n.host.promotions ensures PromotionInv(n, p) { assert PromotionInv(s, p); }
  }

  lemma LockFinishKeeps(s: State)
    requires Inv(s) && s.gui.Finishing?
    ensures Inv(LockStep(s))
  {
    var n := LockStep(s);
    assert PromotionInv(s, s.gui.p);
    forall p | p in n.host.promotions ensures PromotionInv(n, p) { assert PromotionInv(s, p); }
  }

  lemma CallBackKeeps(s: State)
    requires Inv(s) && s.gui.Calling?
    ensures Inv(CallStep(s))
  {
    var n := CallStep(s);
    assert PromotionInv(s, s.gui.p);
    forall p | p in n.host.promotions ensures PromotionInv(n, p) { assert PromotionInv(s, p); }
  }

  lemma SweepCallKeeps(s: State, k: nat)
    requires Inv(s) && s.gui.Sweeping? && k in s.gui.rest && k in s.host.promotions
    ensures Inv(SweepStep(s, k))
  {
    var n := SweepStep(s, k);
    forall p | p in n.host.promotions ensures PromotionInv(n, p) { assert PromotionInv(s, p); }
  }

  lemma ShutStepKeepsSets(s: State)
    requires Inv(s) && s.gui.Idle?
    ensures GuiInv(ShutStep(s)) && SetsInv(ShutStep(s)) && TicketsInv(ShutStep(s))
  {
  }

  lemma ShutStepKeeps(s: State)
    requires Inv(s) && s.gui.Idle?
    ensures Inv(ShutStep(s))
  {
    ShutStepKeepsSets(s);
    forall p | p in s.host.promotions ensures PromotionInv(ShutStep(s), p) { assert PromotionInv(s, p); }
  }

  /** The jobs and the destructor's progress concern no promotion. */
  lemma JobsKeep(s: State, tearing: bool, plan: seq<Phase>, jobs: map<nat, Job>)
    requires Inv(s) && (tearing ==> s.tearing || s.gui.Idle?)
    ensures Inv(s.(tearing := tearing, plan := plan, jobs := jobs))
  {
    var n := s.(tearing := tearing, plan := plan, jobs := jobs);
    forall p | p in s.host.promotions ensures PromotionInv(n, p) { assert PromotionInv(s, p); }
  }

  lemma TeardownKeeps(s: State)
    requires Inv(s) && s.gui.Idle? && s.plan != []
    ensures Inv(TeardownStep(s))
  {
    var n := s.(tearing := true, plan := s.plan[1..]);
    JobsKeep(s, true, s.plan[1..], TeardownStep(s).jobs);
    if s.plan[0] == ShutHost {
      JobsKeep(s, true, s.plan[1..], s.jobs);
      ShutStepKeeps(n);
    }
  }

  lemma StepKeeps(s: State, op: Op)
    requires Inv(s) && Enabled(s, op)
    ensures Inv(Step(s, op))
  {
    match op
    case Promote(request, posts) => PromoteKeeps(s, request, posts);
    case Process(owned, alive) => ProcessKeeps(s, owned, alive);
    case LoadFailed(path, reason, current) => LoadFailedKeeps(s, path, reason, current);
    case Issue(reply) => IssueKeeps(s, reply);
    case LockFinish => LockFinishKeeps(s);
    case CallBack => CallBackKeeps(s);
    case Committing(ticket, produced) => CommittingKeeps(s, ticket, produced);
    case Finished(ticket, outcome) => FinishedKeeps(s, ticket, outcome);
    case SweepCall(p) => SweepCallKeeps(s, p);
    case Shutdown => ShutStepKeeps(s);
    case Teardown => TeardownKeeps(s);
    case StartJob(j) => JobsKeep(s, s.tearing, s.plan, Step(s, op).jobs);
    case ConcludeJob(j) => JobsKeep(s, s.tearing, s.plan, Step(s, op).jobs);
    case HoldBack(j, p) => JobsKeep(s, s.tearing, s.plan, Step(s, op).jobs);
    case EndJob(j) => JobsKeep(s, s.tearing, s.plan, Step(s, op).jobs);
  }
}
