/**
 The promotion host and the session's job registry as the objects they are, each GUI slot run without interference. A
 valid host has answered exactly the promotions that are decided, each once; every slot keeps that, and shutdown answers
 the rest. The last lemmas show that an uninterrupted run of the interleaved steps does what a slot does.
 */
module PromotionHost {
  import opened Basics
  import opened Promotion
  import opened PromotionAnswers
  import opened PromotionTheorems

  /** finishPromotion as a whole: the first decision delivers, any later one does nothing. */
  function Concluded(h: Host, p: nat, answer: Answer): Host
    requires p in h.promotions
  {
    if h.promotions[p].fired then h else Deliver(Claim(h, p), p, answer)
  }

  /** loadFileTicketed reports a synchronous failure before it returns. */
  function Noted(h: Host, p: nat, failure: Option<string>): Host
    requires p in h.promotions
  {
    if failure.None? then h else Update(h, p, h.promotions[p].(reason := failure.value))
  }

  function Issued(h: Host, p: nat, reply: Reply): Host
    requires p in h.promotions
  {
    var q := h.promotions[p];
    match reply
    case Ticket(t) => Update(h, p, q.(ticket := Some(t))).(byTicket := h.byTicket[t := p])
    case Rejected =>
      Concluded(h, p, Answer(false, if q.reason == "" then "the file loader rejected the request" else q.reason))
    case Threw => Update(h, p, q.(stranded := true))
  }

  /** processPromotion as a whole. */
  function Processed(h: Host, p: nat, owned: bool, alive: bool, failure: Option<string>, reply: Reply): Host
  {
    if p !in h.pending || p !in h.promotions then h
    else if !owned then Concluded(h, p, Answer(false, "the dataset was not produced by this plugin's ingest"))
    else if !alive then Concluded(h, p, Answer(false, "the file loader was destroyed"))
    else Issued(Noted(h, p, failure), p, reply)
  }

  /** The loadFinished slot as a whole. */
  function Ended(h: Host, ticket: nat, outcome: Outcome): Host {
    if !Hears(h, ticket) then h
    else
      var p := h.byTicket[ticket];
      Concluded(h.(byTicket := h.byTicket - {ticket}), p, Verdict(h.promotions[p], outcome))
  }

  /** The promotions after shutdown has run the callbacks of `done`. */
  function Swept(before: map<nat, Promotion>, unfinished: set<nat>, rest: set<nat>): map<nat, Promotion> {
    map p | p in before ::
      if p !in unfinished then before[p]
      else if p in rest then before[p].(fired := true)
      else before[p].(fired := true, answers := before[p].answers + [CLOSING])
  }

  /** shutdown as a whole: every unfired promotion is failed once, everything else is left as it was. */
  function Closed(h: Host): Host {
    if h.shuttingDown then h else CloseIntake(h).(promotions := Swept(h.promotions, Unfired(h), {}))
  }

  // ---------- Between two slots every decided promotion has its one answer ----------

  /** Open and unanswered, or decided and answered once; an ok answer means the record is attached. */
  predicate Once(h: Host, p: nat)
    requires p in h.promotions
  {
    var q := h.promotions[p];
    && (p in h.pending <==> !q.fired)
    && |q.answers| == (if q.fired then 1 else 0)
    && (q.fired && q.answers[0].ok ==> q.attached)
  }

  ghost predicate OnceEach(h: Host) {
    && h.pending <= h.promotions.Keys && (forall p :: p in h.promotions ==> p <= h.nextId)
    && (forall t :: t in h.byTicket ==> h.byTicket[t] in h.promotions)
    && h.observing == !h.shuttingDown && (h.shuttingDown ==> h.pending == {} && h.byTicket == map[])
    && forall p :: p in h.promotions ==> Once(h, p)
  }

  lemma AdmitOnce(h: Host, request: Request, posts: bool)
    requires OnceEach(h)
    ensures OnceEach(Admit(h, request, posts))
  {
    var n := Admit(h, request, posts);
    forall p | p in n.promotions ensures Once(n, p) {
      if p in h.promotions { assert Once(h, p); }
    }
  }

  lemma ConcludedOnce(h: Host, p: nat, answer: Answer)
    requires OnceEach(h) && p in h.promotions && (answer.ok ==> h.promotions[p].attached)
    ensures OnceEach(Concluded(h, p, answer)) && Concluded(h, p, answer).promotions[p].fired
  {
    var n := Concluded(h, p, answer);
    assert Once(h, p);
    forall r | r in n.promotions ensures Once(n, r) { assert Once(h, r); }
  }

  /** Recording a reason, an attachment, a ticket or a stranding in one promotion. */
  lemma NotedOnce(h: Host, p: nat, q: Promotion, byTicket: map<nat, nat>)
    requires OnceEach(h) && p in h.promotions
    requires q.fired == h.promotions[p].fired && q.answers == h.promotions[p].answers
    requires h.promotions[p].attached ==> q.attached
    requires forall t :: t in byTicket ==> byTicket[t] in h.promotions
    requires h.shuttingDown ==> byTicket == map[]
    ensures OnceEach(Update(h, p, q).(byTicket := byTicket))
  {
    var n := Update(h, p, q).(byTicket := byTicket);
    forall r | r in n.promotions ensures Once(n, r) { assert Once(h, r); }
  }

  lemma EndedOnce(h: Host, ticket: nat, outcome: Outcome)
    requires OnceEach(h)
    ensures OnceEach(Ended(h, ticket, outcome))
  {
    if Hears(h, ticket) {
      var p := h.byTicket[ticket];
      NotedOnce(h, p, h.promotions[p], h.byTicket - {ticket});
      assert Update(h, p, h.promotions[p]) == h;
      ConcludedOnce(h.(byTicket := h.byTicket - {ticket}), p, Verdict(h.promotions[p], outcome));
    }
  }

  /** After shutdown every accepted call has its one answer, and the answers given before stand. */
  lemma ClosedOnce(h: Host)
    requires OnceEach(h)
    ensures var n := Closed(h);
      && OnceEach(n) && n.shuttingDown
      && forall p :: p in h.promotions ==>
           p in n.promotions && |n.promotions[p].answers| == 1
           && (if h.promotions[p].answers != [] then n.promotions[p].answers == h.promotions[p].answers
               else !n.promotions[p].answers[0].ok)
  {
    var n := Closed(h);
    forall p | p in n.promotions ensures Once(n, p) && |n.promotions[p].answers| == 1 { assert Once(h, p); }
  }

  // ---------- What a slot leaves, in terms of the calls and the loader's word alone ----------

  /** The first decision is the promotion's one answer, a later one changes nothing. */
  ghost predicate ConcludeTells(was: Host, now: Host, p: nat, answer: Answer)
    requires p in was.promotions
  {
    if was.promotions[p].fired then now == was
    else
      && now.promotions == was.promotions[p := was.promotions[p].(fired := true, answers := [answer])]
      && now.pending == was.pending - {p} && now.byTicket == was.byTicket
  }

  lemma ConcludedTells(h: Host, p: nat, answer: Answer)
    requires OnceEach(h) && p in h.promotions
    ensures ConcludeTells(h, Concluded(h, p, answer), p, answer)
  {
    assert Once(h, p);
    if !h.promotions[p].fired {
      assert [] + [answer] == [answer];
      var q := h.promotions[p].(fired := true, answers := [answer]);
      assert Concluded(h, p, answer).promotions == h.promotions[p := q];
    }
  }

  /**
   A queued call that is still open is refused when its dataset is not the plugin's, the loader is gone or the loader
   refuses it; it waits for its load when the loader gives it a ticket.
   */
  ghost predicate ProcessTells(was: Host, now: Host, p: nat, mayLoad: bool, failure: Option<string>, reply: Reply) {
    && (p !in was.pending ==> now == was)
    && (p in was.pending ==>
          && p in now.promotions
          && var q := now.promotions[p];
             && (!mayLoad || reply.Rejected? ==> |q.answers| == 1 && !q.answers[0].ok && now.byTicket == was.byTicket)
             && (mayLoad && reply.Rejected? && failure.Some? && failure.value != "" ==>
                   q.answers[0].message == failure.value)
             && (mayLoad && reply.Ticket? ==>
                   q.answers == [] && q.ticket == Some(reply.t) && now.byTicket == was.byTicket[reply.t := p])
             && (mayLoad && reply.Threw? ==> q.answers == [] && q.stranded && now.byTicket == was.byTicket))
  }

  lemma ProcessedTells(h: Host, p: nat, owned: bool, alive: bool, failure: Option<string>, reply: Reply)
    requires OnceEach(h)
    ensures ProcessTells(h, Processed(h, p, owned, alive, failure, reply), p, owned && alive, failure, reply)
  {
    if p in h.pending {
      assert Once(h, p);
      if !owned || !alive {
        RefusedTells(h, p, Processed(h, p, owned, alive, failure, reply).promotions[p].answers[0]);
      } else {
        IssuedTells(h, p, failure, reply);
      }
    }
  }

  lemma RefusedTells(h: Host, p: nat, answer: Answer)
    requires OnceEach(h) && p in h.pending
    ensures var n := Concluded(h, p, answer);
      p in n.promotions && n.promotions[p].answers == [answer] && n.byTicket == h.byTicket
  {
    assert Once(h, p);
    ConcludedTells(h, p, answer);
  }

  lemma IssuedTells(h: Host, p: nat, failure: Option<string>, reply: Reply)
    requires OnceEach(h) && p in h.pending
    ensures ProcessTells(h, Issued(Noted(h, p, failure), p, reply), p, true, failure, reply)
  {
    assert Once(h, p);
    var n := Noted(h, p, failure);
    NotedOnce(h, p, n.promotions[p], h.byTicket);
    assert n == Update(h, p, n.promotions[p]).(byTicket := h.byTicket);
    if reply.Rejected? {
      var reason := n.promotions[p].reason;
      RefusedTells(n, p, Answer(false, if reason == "" then "the file loader rejected the request" else reason));
    }
  }

  ghost predicate EndTells(was: Host, now: Host, ticket: nat, p: nat, outcome: Outcome)
    requires p in was.promotions && p in now.promotions
  {
    && now.byTicket == was.byTicket - {ticket}
    && if was.promotions[p].fired then now.promotions == was.promotions
       else
         && |now.promotions[p].answers| == 1 && Tells(now.promotions[p].answers[0], was.promotions[p], outcome)
         && now.promotions == was.promotions[p := was.promotions[p].(fired := true, answers := now.promotions[p].answers)]
  }

  lemma EndedTells(h: Host, ticket: nat, outcome: Outcome)
    requires OnceEach(h)
    ensures Hears(h, ticket) ==>
      var p, n := h.byTicket[ticket], Ended(h, ticket, outcome); p in n.promotions && EndTells(h, n, ticket, p, outcome)
  {
    if Hears(h, ticket) {
      var p := h.byTicket[ticket];
      var r := h.(byTicket := h.byTicket - {ticket});
      NotedOnce(h, p, h.promotions[p], h.byTicket - {ticket});
      assert Update(h, p, h.promotions[p]) == h;
      ConcludedTells(r, p, Verdict(h.promotions[p], outcome));
    }
  }

  class SourcePromotionHost {
    var shuttingDown: bool
    var nextId: nat
    var promotions: map<nat, Promotion>
    var pending: set<nat>
    var byTicket: map<nat, nat>
    var observing: bool
    var issuing: Option<nat>

    ghost function View(): Host
      reads this
    {
      Host(shuttingDown, nextId, promotions, pending, byTicket, observing)
    }

    ghost predicate Valid()
      reads this
    {
      OnceEach(View()) && (issuing.Some? ==> issuing.value in promotions)
    }

    constructor ()
      ensures Valid() && View() == FRESH && issuing == None
    {
      shuttingDown, nextId, promotions, pending := false, 0, map[], {};
      byTicket, observing, issuing := map[], true, None;
    }

    method OnPromote(request: Request, posts: bool) returns (accepted: bool)
      requires Valid()
      modifies this
      ensures Valid() && issuing == old(issuing)
      ensures View() == Admit(old(View()), request, posts)
      ensures accepted <==> request.hasCallback && request.wholeV1 && request.dataset != 0 && request.path != ""
                            && !old(shuttingDown) && posts
      ensures accepted ==>
        && nextId !in old(promotions) && pending == old(pending) + {nextId}
        && promotions == old(promotions)[nextId := promotions[nextId]]
        && promotions[nextId].request == request && promotions[nextId].answers == [] && !promotions[nextId].attached
      ensures !accepted ==> promotions == old(promotions) && pending == old(pending)
    {
      AdmitOnce(View(), request, posts);
      if !request.hasCallback || !request.wholeV1 || request.dataset == 0 || request.path == "" {
        return false;
      }
      if shuttingDown {
        return false;
      }
      nextId := nextId + 1;
      if !posts {
        return false;
      }
      promotions := promotions[nextId := Promotion(request, false, "", false, [], None, false)];
      pending := pending + {nextId};
      return true;
    }

    /** Release-once: the first decision delivers, and afterwards the call has exactly one answer. */
    method FinishPromotion(p: nat, answer: Answer)
      requires Valid() && p in promotions && (answer.ok ==> promotions[p].attached)
      modifies this
      ensures Valid() && issuing == old(issuing)
      ensures View() == Concluded(old(View()), p, answer)
      ensures p in promotions && |promotions[p].answers| == 1
      ensures ConcludeTells(old(View()), View(), p, answer)
    {
      ConcludedTells(View(), p, answer);
      ConcludedOnce(View(), p, answer);
      assert Once(View(), p);
      if promotions[p].fired {
        return;
      }
      promotions := promotions[p := promotions[p].(fired := true)];
      pending := pending - {p};
      promotions := promotions[p := promotions[p].(answers := promotions[p].answers + [answer])];
    }

    /** `failure` and `reply` are what the loader does inside loadFileTicketed. */
    method ProcessPromotion(p: nat, owned: bool, alive: bool, failure: Option<string>, reply: Reply)
      requires Valid() && issuing.None?
      modifies this
      ensures Valid() && issuing.None?
      ensures View() == Processed(old(View()), p, owned, alive, failure, reply)
      ensures ProcessTells(old(View()), View(), p, owned && alive, failure, reply)
    {
      ProcessedTells(View(), p, owned, alive, failure, reply);
      if p !in pending {
        return;
      }
      if !owned {
        FinishPromotion(p, Answer(false, "the dataset was not produced by this plugin's ingest"));
        return;
      }
      if !alive {
        FinishPromotion(p, Answer(false, "the file loader was destroyed"));
        return;
      }
      IssuePromotion(p, failure, reply);
    }

    /** The loader's synchronous failure reaches the promotion being issued. */
    method IssuePromotion(p: nat, failure: Option<string>, reply: Reply)
      requires Valid() && issuing.None? && p in pending
      modifies this
      ensures Valid() && issuing.None?
      ensures View() == Issued(Noted(old(View()), p, failure), p, reply)
    {
      issuing := Some(p);
      if failure.Some? {
        OnFileLoadFailed("", failure.value, 0);
      }
      issuing := None;
      SettleReply(p, reply);
    }

    method SettleReply(p: nat, reply: Reply)
      requires Valid() && issuing.None? && p in pending
      modifies this
      ensures Valid() && issuing.None?
      ensures View() == Issued(old(View()), p, reply)
    {
      match reply {
        case Threw =>
          NotedOnce(View(), p, promotions[p].(stranded := true), byTicket);
          promotions := promotions[p := promotions[p].(stranded := true)];
        case Rejected =>
          var reason := promotions[p].reason;
          FinishPromotion(p, Answer(false, if reason == "" then "the file loader rejected the request" else reason));
        case Ticket(t) =>
          NotedOnce(View(), p, promotions[p].(ticket := Some(t)), byTicket[t := p]);
          promotions := promotions[p := promotions[p].(ticket := Some(t))];
          byTicket := byTicket[t := p];
      }
    }

    method OnLoadCommitting(ticket: nat, produced: set<nat>)
      requires Valid()
      modifies this
      ensures Valid() && issuing == old(issuing)
      ensures View() == SeeCommit(old(View()), ticket, produced)
      ensures old(Hears(View(), ticket)) ==>
        var p := old(byTicket)[ticket];
        && promotions.Keys == old(promotions).Keys && p in promotions
        && Committed(old(promotions)[p], promotions[p], produced)
        && forall r :: r in promotions && r != p ==> promotions[r] == old(promotions)[r]
      ensures !old(Hears(View(), ticket)) ==> promotions == old(promotions)
    {
      if !observing || ticket !in byTicket {
        return;
      }
      var p := byTicket[ticket];
      if promotions[p].request.dataset !in produced {
        promotions := promotions[p := promotions[p].(reason := "the committed load did not preserve the dataset")];
        return;
      }
      promotions := promotions[p := promotions[p].(attached := true)];
    }

    method OnFileLoadFailed(path: string, reason: string, current: nat)
      requires Valid()
      modifies this
      ensures Valid() && issuing == old(issuing)
      ensures View() == if issuing.Some? then Noted(old(View()), issuing.value, Some(reason))
                        else SeeFailure(old(View()), path, reason, current)
      ensures promotions.Keys == old(promotions).Keys
      ensures forall r :: r in promotions ==>
        promotions[r] == (if (if old(issuing).Some? then r == old(issuing).value
                              else old(Hears(View(), current)) && r == old(byTicket)[current]
                                   && old(promotions)[r].request.path == path)
                          then old(promotions)[r].(reason := reason) else old(promotions)[r])
    {
      if issuing.Some? {
        promotions := promotions[issuing.value := promotions[issuing.value].(reason := reason)];
        return;
      }
      if observing && current in byTicket && promotions[byTicket[current]].request.path == path {
        promotions := promotions[byTicket[current] := promotions[byTicket[current]].(reason := reason)];
      }
    }

    /** The promotion of an ended load, still open, gets its one answer: ok exactly when loaded with its record attached. */
    method OnLoadFinished(ticket: nat, outcome: Outcome)
      requires Valid()
      modifies this
      ensures Valid() && issuing == old(issuing)
      ensures View() == Ended(old(View()), ticket, outcome)
      ensures !old(Hears(View(), ticket)) ==> View() == old(View())
      ensures old(Hears(View(), ticket)) ==>
        var p := old(byTicket)[ticket];
        p in promotions && EndTells(old(View()), View(), ticket, p, outcome)
    {
      EndedTells(View(), ticket, outcome);
      if observing && ticket in byTicket {
        AnswerEnded(ticket, outcome);
      }
    }

    method AnswerEnded(ticket: nat, outcome: Outcome)
      requires Valid() && Hears(View(), ticket)
      modifies this
      ensures Valid() && issuing == old(issuing)
      ensures View() == Ended(old(View()), ticket, outcome)
    {
      EndedOnce(View(), ticket, outcome);
      var p := byTicket[ticket];
      byTicket := byTicket - {ticket};
      if outcome == Loaded && promotions[p].attached {
        FinishPromotion(p, Answer(true, "promoted"));
        return;
      }
      var message := promotions[p].reason;
      if message == "" {
        message := match outcome
          case Cancelled => "the replacement load was cancelled"
          case Loaded => "the load committed without attaching the source record"
          case Failed => "the replacement load failed";
      }
      FinishPromotion(p, Answer(false, message));
    }

    /** Afterwards every accepted call has exactly one answer; the ones given before stand. */
    method Shutdown()
      requires Valid()
      modifies this
      ensures Valid() && issuing == old(issuing)
      ensures View() == Closed(old(View()))
      ensures shuttingDown && forall p :: p in old(promotions) ==>
        p in promotions && |promotions[p].answers| == 1
        && (if old(promotions)[p].answers != [] then promotions[p].answers == old(promotions)[p].answers
            else !promotions[p].answers[0].ok)
    {
      ClosedOnce(View());
      if shuttingDown {
        return;
      }
      shuttingDown := true;
      var unfinished := CollectUnfired();
      pending := {};
      observing := false;
      byTicket := map[];
      FailAll(unfinished, old(promotions));
    }

    /** shutdown's callback loop: each of `unfinished` is failed once. */
    method FailAll(unfinished: set<nat>, ghost before: map<nat, Promotion>)
      requires unfinished <= promotions.Keys && promotions == Swept(before, unfinished, unfinished)
      modifies this`promotions
      ensures promotions == Swept(before, unfinished, {})
    {
      var rest := unfinished;
      while rest != {}
        invariant rest <= unfinished <= promotions.Keys
        invariant promotions == Swept(before, unfinished, rest)
        decreases |rest|
      {
        var p :| p in rest;
        var next := promotions[p := promotions[p].(answers := promotions[p].answers + [CLOSING])];
        assert next == Swept(before, unfinished, rest - {p});
        promotions := next;
        rest := rest - {p};
      }
    }

    /** The part of shutdown under the lock: marks every open promotion fired and returns them. */
    method CollectUnfired() returns (unfinished: set<nat>)
      requires pending <= promotions.Keys
      modifies this`promotions
      ensures unfinished == Unfired(old(View()))
      ensures promotions == Swept(old(promotions), unfinished, unfinished)
    {
      unfinished := {};
      var rest := pending;
      while rest != {}
        invariant rest <= pending && pending <= promotions.Keys == old(promotions).Keys
        invariant unfinished == (set p | p in pending - rest && !old(promotions)[p].fired)
        invariant promotions == Swept(old(promotions), unfinished, unfinished)
        decreases |rest|
      {
        var p :| p in rest;
        rest := rest - {p};
        if !promotions[p].fired {
          promotions := promotions[p := promotions[p].(fired := true)];
          unfinished := unfinished + {p};
        }
      }
    }
  }

  /** The registry of import jobs. Ids are never reused within a session. */
  class ProviderSession {
    var nextJobId: nat
    var jobs: map<nat, Job>

    ghost predicate Valid()
      reads this
    {
      forall j :: j in jobs ==> j <= nextJobId
    }

    constructor ()
      ensures Valid() && jobs == map[] && nextJobId == 0
    {
      nextJobId, jobs := 0, map[];
    }

    /** `started` says whether the provider accepted the import. */
    method StartImport(started: bool) returns (id: Option<nat>)
      requires Valid()
      modifies this
      ensures Valid() && nextJobId == old(nextJobId) + 1 && nextJobId !in old(jobs)
      ensures id == (if started then Some(nextJobId) else None)
      ensures jobs == if started then old(jobs)[nextJobId := Job(false, None, false)] else old(jobs)
    {
      nextJobId := nextJobId + 1;
      if !started {
        return None;
      }
      jobs := jobs[nextJobId := Job(false, None, false)];
      return Some(nextJobId);
    }

    method ConcludeJob(id: nat)
      requires Valid()
      modifies this`jobs
      ensures Valid() && jobs == old(jobs) - {id}
    {
      if id !in jobs {
        assert jobs == jobs - {id};
        return;
      }
      jobs := jobs - {id};
    }

    method CancelJob(id: nat)
      requires Valid()
      modifies this`jobs
      ensures Valid() && jobs == if id in old(jobs) then old(jobs)[id := old(jobs)[id].(cancelled := true)] else old(jobs)
    {
      if id !in jobs {
        return;
      }
      jobs := jobs[id := jobs[id].(cancelled := true)];
    }

    /** What the destructor's first phase does to the registry. */
    method CancelAll()
      requires Valid()
      modifies this`jobs
      ensures Valid() && jobs == map j | j in old(jobs) :: old(jobs)[j].(cancelled := true)
    {
      var rest := jobs.Keys;
      while rest != {}
        invariant rest <= jobs.Keys == old(jobs).Keys
        invariant forall j :: j in jobs ==>
          jobs[j] == if j in rest then old(jobs)[j] else old(jobs)[j].(cancelled := true)
        decreases |rest|
      {
        var j :| j in rest;
        jobs := jobs[j := jobs[j].(cancelled := true)];
        rest := rest - {j};
      }
    }
  }

  // ---------- An uninterrupted slot is a run of the interleaved steps ----------

  /** finishPromotion without interference. */
  lemma FinishIsARun(s: State)
    requires s.gui.Finishing? && s.gui.p in s.host.promotions
    ensures var ops := if s.host.promotions[s.gui.p].fired then [LockFinish] else [LockFinish, CallBack];
      && LegalRun(s, ops)
      && Run(s, ops) == s.(host := Concluded(s.host, s.gui.p, s.gui.answer), gui := Idle)
  {
    var n := Step(s, LockFinish);
    if s.host.promotions[s.gui.p].fired {
      RunCons(s, LockFinish, []);
      assert [LockFinish] + [] == [LockFinish];
    } else {
      RunCons(n, CallBack, []);
      RunCons(s, LockFinish, [CallBack] + []);
      assert [LockFinish] + ([CallBack] + []) == [LockFinish, CallBack];
    }
  }

  /** The loadFinished slot without interference. */
  lemma EndedIsARun(s: State, ticket: nat, outcome: Outcome) returns (ops: seq<Op>)
    requires EventLoop(s)
    ensures LegalRun(s, ops) && Run(s, ops) == s.(host := Ended(s.host, ticket, outcome))
  {
    var n := Step(s, Finished(ticket, outcome));
    if Hears(s.host, ticket) {
      FinishIsARun(n);
      ops := if n.host.promotions[n.gui.p].fired then [LockFinish] else [LockFinish, CallBack];
      RunCons(s, Finished(ticket, outcome), ops);
      ops := [Finished(ticket, outcome)] + ops;
    } else {
      ops := [];
    }
  }

  /** shutdown's callback loop without interference, whatever order it takes. */
  lemma {:induction false} ClosedIsARun(s: State, before: map<nat, Promotion>, open: set<nat>) returns (ops: seq<Op>)
    requires s.gui.Sweeping? && s.gui.rest != {} && s.gui.rest <= open <= before.Keys
    requires s.host.promotions == Swept(before, open, s.gui.rest)
    ensures LegalRun(s, ops) && Run(s, ops) == s.(gui := Idle, host := s.host.(promotions := Swept(before, open, {})))
    decreases |s.gui.rest|
  {
    var p :| p in s.gui.rest;
    var n := Step(s, SweepCall(p));
    assert n.host.promotions == Swept(before, open, s.gui.rest - {p});
    if s.gui.rest == {p} {
      ops := [];
    } else {
      ops := ClosedIsARun(n, before, open);
    }
    RunCons(s, SweepCall(p), ops);
    ops := [SweepCall(p)] + ops;
  }
}
