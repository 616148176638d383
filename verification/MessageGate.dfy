/**
 The rendezvous between import workers that ask a plugin question and the threads that answer it. Every lock section,
 compare-exchange, store, semaphore release and acquire is a step of its own, and steps of different threads
 interleave freely. A question is one call of the handler: the source makes a new request object for each.
 */
module MessageGate {
  import opened Basics

  /** Where the asking worker is inside the handler. */
  datatype Phase =
    | Registered        // known to the gate, not posted yet
    | Unposted          // the post failed, endRequest is next
    | Parked            // in ready.acquire()
    | Woken             // acquired, endRequest is next
    | Reading           // result() is next
    | Refused           // returned -1 without having parked
    | Returned(answer: int)

  /**
   One question. The last four fields are history: what won the compare-exchange and on which thread, how often
   `ready` was released, and the thread on which shutdown called finish.
   */
  datatype Question = Question(
    phase: Phase, finished: bool, value: int, permits: nat,
    winner: Option<int>, owner: nat, releases: nat, sweeper: Option<nat>)

  datatype Stage = CompareExchange | Store | Release
  /** A call of finish(value) in progress on some thread. */
  datatype Finish = Finish(question: nat, value: int, stage: Stage)

  datatype State = State(
    shut: bool,
    pending: set<nat>,
    sweep: set<nat>,              // taken out of `pending` by shutdown and not yet handed to finish
    questions: map<nat, Question>,
    posted: set<nat>,             // queued GUI calls that would open a dialog
    dialogs: set<nat>,
    finishes: map<nat, Finish>)

  const INITIAL := State(false, {}, {}, map[], {}, {}, map[])

  datatype Op =
    | Ask(r: nat)
    | Post(r: nat, ok: bool)
    | GiveUp(r: nat)
    | Acquire(r: nat)
    | Leave(r: nat)
    | Read(r: nat)
    | OpenDialog(r: nat, parentGone: bool, thread: nat)
    | AnswerDialog(r: nat, value: int, thread: nat)
    | CloseDialog(r: nat)
    | Shutdown
    | Sweep(r: nat, thread: nat)
    | Advance(thread: nat)

  predicate ByWorker(op: Op) {
    op.Ask? || op.Post? || op.GiveUp? || op.Acquire? || op.Leave? || op.Read?
  }

  predicate In(s: State, r: nat, p: Phase) {
    r in s.questions && s.questions[r].phase == p
  }

  predicate Enabled(s: State, op: Op) {
    match op
    case Ask(r) => r !in s.questions
    case Post(r, _) => In(s, r, Registered)
    case GiveUp(r) => In(s, r, Unposted)
    case Acquire(r) => In(s, r, Parked) && s.questions[r].permits > 0
    case Leave(r) => In(s, r, Woken)
    case Read(r) => In(s, r, Reading)
    case OpenDialog(r, _, t) => r in s.posted && t !in s.finishes
    case AnswerDialog(r, _, t) => r in s.dialogs && t !in s.finishes
    case CloseDialog(r) => r in s.dialogs
    case Shutdown => true
    case Sweep(r, t) => r in s.sweep && r in s.questions && t !in s.finishes
    case Advance(t) => t in s.finishes && s.finishes[t].question in s.questions
  }

  function Put(s: State, r: nat, q: Question): State {
    s.(questions := s.questions[r := q])
  }

  function Move(s: State, r: nat, p: Phase): State
    requires r in s.questions
  {
    Put(s, r, s.questions[r].(phase := p))
  }

  function Begin(s: State, thread: nat, r: nat, value: int): State {
    s.(finishes := s.finishes[thread := Finish(r, value, CompareExchange)])
  }

  /** One step of the finish call on `thread`. */
  function AdvanceFinish(s: State, thread: nat): State
    requires Enabled(s, Advance(thread))
  {
    var f := s.finishes[thread];
    var q := s.questions[f.question];
    match f.stage
    case CompareExchange =>
      if q.finished then s.(finishes := s.finishes - {thread})
      else Put(s, f.question, q.(finished := true, winner := Some(f.value), owner := thread))
           .(finishes := s.finishes[thread := f.(stage := Store)])
    case Store =>
      Put(s, f.question, q.(value := f.value)).(finishes := s.finishes[thread := f.(stage := Release)])
    case Release =>
      Put(s, f.question, q.(permits := q.permits + 1, releases := q.releases + 1)).(finishes := s.finishes - {thread})
  }

  function Step(s: State, op: Op): State
    requires Enabled(s, op)
  {
    match op
    case Ask(r) =>
      if s.shut then Put(s, r, Question(Refused, false, -1, 0, None, 0, 0, None))
      else Put(s.(pending := s.pending + {r}), r, Question(Registered, false, -1, 0, None, 0, 0, None))
    case Post(r, ok) => if ok then Move(s.(posted := s.posted + {r}), r, Parked) else Move(s, r, Unposted)
    case GiveUp(r) => Move(s.(pending := s.pending - {r}), r, Refused)
    case Acquire(r) => Put(s, r, s.questions[r].(permits := s.questions[r].permits - 1, phase := Woken))
    case Leave(r) => Move(s.(pending := s.pending - {r}), r, Reading)
    case Read(r) => Move(s, r, Returned(s.questions[r].value))
    case OpenDialog(r, parentGone, t) =>
      var n := s.(posted := s.posted - {r});
      if s.shut || parentGone then Begin(n, t, r, -1) else n.(dialogs := n.dialogs + {r})
    case AnswerDialog(r, v, t) => Begin(s, t, r, v)
    case CloseDialog(r) => s.(dialogs := s.dialogs - {r})
    case Shutdown => s.(shut := true, sweep := s.sweep + s.pending, pending := {})
    case Sweep(r, t) => Begin(Put(s.(sweep := s.sweep - {r}), r, s.questions[r].(sweeper := Some(t))), t, r, -1)
    case Advance(t) => AdvanceFinish(s, t)
  }

  predicate LegalRun(s: State, ops: seq<Op>)
    decreases |ops|
  {
    ops == [] || (Enabled(s, ops[0]) && LegalRun(Step(s, ops[0]), ops[1..]))
  }

  function Run(s: State, ops: seq<Op>): State
    requires LegalRun(s, ops)
    decreases |ops|
  {
    if ops == [] then s else Run(Step(s, ops[0]), ops[1..])
  }

  // ---------- Invariant ----------

  /** The worker may still have to wait for a permit. */
  predicate Waits(p: Phase) {
    p.Registered? || p.Unposted? || p.Parked?
  }

  predicate Done(p: Phase) {
    p.Refused? || p.Returned?
  }

  /** A finish call that has won the compare-exchange and not yet released. */
  predicate Won(f: Finish) {
    f.stage != CompareExchange
  }

  /** What is true of one question whatever the threads do. */
  predicate QuestionInv(q: Question) {
    && (q.finished <==> q.winner.Some?)
    && q.permits <= q.releases <= 1
    && (q.releases == 1 ==> q.winner == Some(q.value))
    && (Waits(q.phase) ==> q.permits == q.releases)
    && (q.phase.Woken? || q.phase.Reading? ==> q.releases == 1)
    && (q.phase.Returned? ==> q.releases == 1 && q.winner == Some(q.phase.answer))
  }

  /** `t` runs the finish call that owns the answer of its question. */
  predicate OwnsInv(s: State, t: nat)
    requires t in s.finishes
  {
    && s.finishes[t].question in s.questions
    && (Won(s.finishes[t]) ==>
          var q := s.questions[s.finishes[t].question];
          && q.owner == t && q.releases == 0 && q.winner == Some(s.finishes[t].value)
          && (s.finishes[t].stage == Release ==> q.value == s.finishes[t].value))
  }

  /** A won question is either released or its owner is still on the way to the release. */
  predicate ReleaseInv(s: State, r: nat)
    requires r in s.questions
  {
    var q := s.questions[r];
    q.finished && q.releases == 0 ==>
      q.owner in s.finishes && s.finishes[q.owner].question == r && Won(s.finishes[q.owner])
  }

  /** Once the gate is shut, someone is bound to call finish for `r`; before that the gate knows `r`. */
  predicate Covered(s: State, r: nat)
    requires r in s.questions
  {
    var q := s.questions[r];
    if s.shut then
      || r in s.sweep || q.finished
      || (q.sweeper.Some? && q.sweeper.value in s.finishes && s.finishes[q.sweeper.value].question == r)
    else r in s.pending
  }

  predicate SetsInv(s: State) {
    && s.pending <= s.questions.Keys && s.sweep <= s.questions.Keys
    && s.posted <= s.questions.Keys && s.dialogs <= s.questions.Keys
    && (s.shut ==> s.pending == {})
  }

  ghost predicate Questions(s: State) {
    forall r :: r in s.questions ==> QuestionInv(s.questions[r])
  }

  ghost predicate Owners(s: State) {
    forall t :: t in s.finishes ==> OwnsInv(s, t)
  }

  ghost predicate Releases(s: State) {
    forall r :: r in s.questions ==> ReleaseInv(s, r)
  }

  ghost predicate Cover(s: State) {
    forall r :: r in s.questions && Waits(s.questions[r].phase) ==> Covered(s, r)
  }

  ghost predicate Inv(s: State) {
    SetsInv(s) && Questions(s) && Owners(s) && Releases(s) && Cover(s)
  }

  // ---------- Every step keeps the invariant ----------

  lemma AskKeeps(s: State, r: nat)
    requires Inv(s) && r !in s.questions
    ensures Inv(Step(s, Ask(r)))
  {
    var n := Step(s, Ask(r));
    assert SetsInv(n) && Questions(n);
    forall t | t in n.finishes ensures OwnsInv(n, t) { assert OwnsInv(s, t); }
    forall k | k in n.questions ensures ReleaseInv(n, k) { assert k != r ==> ReleaseInv(s, k); }
    forall k | k in n.questions && Waits(n.questions[k].phase) ensures Covered(n, k) { assert k != r ==> Covered(s, k); }
  }

  /** A worker moving its own question leaves what finish calls and shutdown rely on alone. */
  lemma MoveKeeps(s: State, n: State, r: nat, q: Question)
    requires Inv(s) && r in s.questions
    requires n.questions == s.questions[r := q] && n.finishes == s.finishes
    requires n.shut == s.shut && n.sweep == s.sweep && SetsInv(n)
    requires QuestionInv(q) && q.(phase := Registered, permits := 0) == s.questions[r].(phase := Registered, permits := 0)
    requires Waits(q.phase) ==> Waits(s.questions[r].phase) && (r in s.pending ==> r in n.pending)
    requires s.pending - {r} <= n.pending
    ensures Inv(n)
  {
    forall t | t in n.finishes ensures OwnsInv(n, t) { assert OwnsInv(s, t); }
    forall k | k in n.questions ensures ReleaseInv(n, k) { assert ReleaseInv(s, k); }
    forall k | k in n.questions && Waits(n.questions[k].phase) ensures Covered(n, k) { assert Covered(s, k); }
  }

  lemma WorkerStepKeeps(s: State, op: Op)
    requires Inv(s) && Enabled(s, op) && ByWorker(op) && !op.Ask?
    ensures Inv(Step(s, op))
  {
    var n := Step(s, op);
    assert QuestionInv(s.questions[op.r]);
    MoveKeeps(s, n, op.r, n.questions[op.r]);
  }

  lemma GateStepKeeps(s: State, op: Op)
    requires Inv(s) && Enabled(s, op) && !ByWorker(op) && !op.Advance?
    ensures Inv(Step(s, op))
  {
    var n := Step(s, op);
    assert SetsInv(n) && Questions(n);
    forall t | t in n.finishes ensures OwnsInv(n, t) { assert t in s.finishes ==> OwnsInv(s, t); }
    forall r | r in n.questions ensures ReleaseInv(n, r) { assert ReleaseInv(s, r); }
    forall r | r in n.questions && Waits(n.questions[r].phase) ensures Covered(n, r) { assert Covered(s, r); }
  }

  lemma AdvanceQuestions(s: State, t: nat)
    requires Inv(s) && Enabled(s, Advance(t))
    ensures SetsInv(AdvanceFinish(s, t)) && Questions(AdvanceFinish(s, t))
  {
    assert OwnsInv(s, t) && QuestionInv(s.questions[s.finishes[t].question]);
  }

  lemma AdvanceOwners(s: State, t: nat)
    requires Inv(s) && Enabled(s, Advance(t))
    ensures Owners(AdvanceFinish(s, t))
  {
    var n := AdvanceFinish(s, t);
    assert OwnsInv(s, t) && QuestionInv(s.questions[s.finishes[t].question]) && ReleaseInv(s, s.finishes[t].question);
    forall u | u in n.finishes ensures OwnsInv(n, u) { assert OwnsInv(s, u); }
  }

  lemma AdvanceReleases(s: State, t: nat)
    requires Inv(s) && Enabled(s, Advance(t))
    ensures Releases(AdvanceFinish(s, t))
  {
    var n := AdvanceFinish(s, t);
    assert OwnsInv(s, t);
    forall r | r in n.questions ensures ReleaseInv(n, r) { assert ReleaseInv(s, r); }
  }

  lemma AdvanceCover(s: State, t: nat)
    requires Inv(s) && Enabled(s, Advance(t))
    ensures Cover(AdvanceFinish(s, t))
  {
    var n := AdvanceFinish(s, t);
    assert OwnsInv(s, t) && QuestionInv(s.questions[s.finishes[t].question]);
    forall r | r in n.questions && Waits(n.questions[r].phase) ensures Covered(n, r) { assert Covered(s, r); }
  }

  lemma StepKeeps(s: State, op: Op)
    requires Inv(s) && Enabled(s, op)
    ensures Inv(Step(s, op))
  {
    if op.Advance? {
      AdvanceQuestions(s, op.thread);
      AdvanceOwners(s, op.thread);
      AdvanceReleases(s, op.thread);
      AdvanceCover(s, op.thread);
    } else if op.Ask? {
      AskKeeps(s, op.r);
    } else if ByWorker(op) {
      WorkerStepKeeps(s, op);
    } else {
      GateStepKeeps(s, op);
    }
  }

  lemma {:induction false} RunKeeps(s: State, ops: seq<Op>)
    requires Inv(s) && LegalRun(s, ops)
    ensures Inv(Run(s, ops))
    decreases |ops|
  {
    if ops != [] {
      StepKeeps(s, ops[0]);
      RunKeeps(Step(s, ops[0]), ops[1..]);
    }
  }

  lemma InitialInv()
    ensures Inv(INITIAL)
  {
  }

  // ---------- What the worker reads ----------

  /** In every run, a worker that gets past its wait reads what the one winning finish call stored, released once. */
  lemma AnswersAreTheWinners(ops: seq<Op>, r: nat)
    requires LegalRun(INITIAL, ops) && r in Run(INITIAL, ops).questions
    ensures var q := Run(INITIAL, ops).questions[r];
      && q.releases <= 1
      && (q.phase.Returned? ==> q.releases == 1 && q.winner == Some(q.phase.answer))
      && (q.phase.Woken? || q.phase.Reading? ==> q.winner == Some(q.value))
  {
    InitialInv();
    RunKeeps(INITIAL, ops);
    var q := Run(INITIAL, ops).questions[r];
    assert QuestionInv(q);
  }

  lemma WinnerStands(s: State, op: Op, r: nat)
    requires Inv(s) && Enabled(s, op) && r in s.questions && s.questions[r].winner.Some?
    ensures r in Step(s, op).questions && Step(s, op).questions[r].winner == s.questions[r].winner
  {
    assert QuestionInv(s.questions[r]);
  }

  /** The first answer stands: no later finish call, and no shutdown, changes it. */
  lemma {:induction false} FirstAnswerStands(s: State, ops: seq<Op>, r: nat)
    requires Inv(s) && LegalRun(s, ops) && r in s.questions && s.questions[r].winner.Some?
    ensures r in Run(s, ops).questions && Run(s, ops).questions[r].winner == s.questions[r].winner
    decreases |ops|
  {
    if ops != [] {
      StepKeeps(s, ops[0]);
      WinnerStands(s, ops[0], r);
      FirstAnswerStands(Step(s, ops[0]), ops[1..], r);
    }
  }

  // ---------- Where an answer comes from ----------

  /** The answers this step puts forward for question `r`: the button of its dialog, or -1 where nobody can be asked. */
  function Supplies(s: State, op: Op, r: nat): set<int> {
    match op
    case AnswerDialog(q, value, _) => if q == r then {value} else {}
    case Sweep(q, _) => if q == r then {-1} else {}
    case OpenDialog(q, parentGone, _) => if q == r && (s.shut || parentGone) then {-1} else {}
    case _ => {}
  }

  function Supplied(s: State, ops: seq<Op>, r: nat): set<int>
    requires LegalRun(s, ops)
    decreases |ops|
  {
    if ops == [] then {} else Supplies(s, ops[0], r) + Supplied(Step(s, ops[0]), ops[1..], r)
  }

  /** Whatever has won question `r`, or may still win it, is one of `given`. */
  ghost predicate AnsweredFrom(s: State, r: nat, given: set<int>) {
    && (r in s.questions && s.questions[r].winner.Some? ==> s.questions[r].winner.value in given)
    && forall t :: t in s.finishes && s.finishes[t].question == r ==> s.finishes[t].value in given
  }

  lemma StepAnswersFrom(s: State, op: Op, r: nat, given: set<int>)
    requires Enabled(s, op) && AnsweredFrom(s, r, given)
    ensures AnsweredFrom(Step(s, op), r, given + Supplies(s, op, r))
  {
  }

  lemma {:induction false} RunAnswersFrom(s: State, ops: seq<Op>, r: nat, given: set<int>)
    requires LegalRun(s, ops) && AnsweredFrom(s, r, given)
    ensures AnsweredFrom(Run(s, ops), r, given + Supplied(s, ops, r))
    decreases |ops|
  {
    if ops == [] {
      assert given + {} == given;
    } else {
      var now := given + Supplies(s, ops[0], r);
      StepAnswersFrom(s, ops[0], r, given);
      RunAnswersFrom(Step(s, ops[0]), ops[1..], r, now);
      assert given + Supplied(s, ops, r) == now + Supplied(Step(s, ops[0]), ops[1..], r);
    }
  }

  /**
   In every run the worker returns an answer somebody gave to its own question; when only one was given, such as the
   button of its dialog with no shutdown interfering, it returns that one.
   */
  lemma UncontestedAnswerReturns(ops: seq<Op>, r: nat)
    requires LegalRun(INITIAL, ops) && r in Run(INITIAL, ops).questions && Run(INITIAL, ops).questions[r].phase.Returned?
    ensures var answer := Run(INITIAL, ops).questions[r].phase.answer;
      && answer in Supplied(INITIAL, ops, r)
      && forall v :: Supplied(INITIAL, ops, r) == {v} ==> answer == v
  {
    AnswersAreTheWinners(ops, r);
    RunAnswersFrom(INITIAL, ops, r, {});
    assert {} + Supplied(INITIAL, ops, r) == Supplied(INITIAL, ops, r);
  }

  lemma Cons(s: State, op: Op, rest: seq<Op>)
    requires Enabled(s, op) && LegalRun(Step(s, op), rest)
    ensures LegalRun(s, [op] + rest) && Run(s, [op] + rest) == Run(Step(s, op), rest)
  {
    assert ([op] + rest)[1..] == rest;
  }

  /** A worker that waits on an open dialog nobody else answers. */
  ghost predicate AtDialog(s: State, r: nat, thread: nat) {
    && Inv(s) && In(s, r, Parked) && r in s.dialogs && !s.questions[r].finished && thread !in s.finishes
  }

  function AnswerSteps(r: nat, value: int, thread: nat): seq<Op> {
    [AnswerDialog(r, value, thread)] + ([Advance(thread)] + ([Advance(thread)] + ([Advance(thread)] + [])))
  }

  /** The button's value is stored and one permit released. */
  lemma DialogAnswered(s: State, r: nat, value: int, thread: nat)
    requires AtDialog(s, r, thread)
    ensures LegalRun(s, AnswerSteps(r, value, thread))
    ensures var n := Run(s, AnswerSteps(r, value, thread));
      && In(n, r, Parked) && n.questions[r].value == value && n.questions[r].permits == 1
  {
    assert QuestionInv(s.questions[r]);
    var a := Step(s, AnswerDialog(r, value, thread));
    var b := Step(a, Advance(thread));
    var c := Step(b, Advance(thread));
    Cons(c, Advance(thread), []);
    Cons(b, Advance(thread), [Advance(thread)] + []);
    Cons(a, Advance(thread), [Advance(thread)] + ([Advance(thread)] + []));
    Cons(s, AnswerDialog(r, value, thread), [Advance(thread)] + ([Advance(thread)] + ([Advance(thread)] + [])));
  }

  /** The button pressed in a dialog is what its worker returns. */
  lemma ButtonReachesWorker(s: State, r: nat, value: int, thread: nat) returns (ops: seq<Op>)
    requires AtDialog(s, r, thread)
    ensures LegalRun(s, ops) && In(Run(s, ops), r, Returned(value))
  {
    DialogAnswered(s, r, value, thread);
    var n := Run(s, AnswerSteps(r, value, thread));
    var w := Step(n, Acquire(r));
    var d := Step(w, Leave(r));
    Cons(d, Read(r), []);
    Cons(w, Leave(r), [Read(r)] + []);
    Cons(n, Acquire(r), [Leave(r)] + ([Read(r)] + []));
    var rest := [Acquire(r)] + ([Leave(r)] + ([Read(r)] + []));
    RunAppend(s, AnswerSteps(r, value, thread), rest);
    ops := AnswerSteps(r, value, thread) + rest;
  }

  // ---------- Shutdown ----------

  /** The gate's shutdown() has returned and no finish call is running: where joinForShutdown waits for the worker. */
  ghost predicate Quiet(s: State) {
    Inv(s) && s.shut && s.sweep == {} && s.finishes == map[]
  }

  /** What the worker does next on its own, in program order. */
  function OwnStep(s: State, r: nat): Op
    requires r in s.questions && !Done(s.questions[r].phase)
  {
    match s.questions[r].phase
    case Registered => Post(r, true)
    case Unposted => GiveUp(r)
    case Parked => Acquire(r)
    case Woken => Leave(r)
    case Reading => Read(r)
  }

  function Rank(p: Phase): nat {
    match p
    case Registered => 4
    case Parked => 3
    case Woken => 2
    case Unposted => 1
    case Reading => 1
    case Refused => 0
    case Returned(_) => 0
  }

  /** While the GUI thread only waits, no worker is parked without a permit: each can take its next step. */
  lemma QuietNeverParks(s: State, r: nat)
    requires Quiet(s) && r in s.questions && !Done(s.questions[r].phase)
    ensures Waits(s.questions[r].phase) ==> s.questions[r].permits == 1
    ensures Enabled(s, OwnStep(s, r))
  {
    assert QuestionInv(s.questions[r]) && ReleaseInv(s, r);
    if Waits(s.questions[r].phase) {
      assert Covered(s, r);
    }
  }

  /** Nothing a worker does undoes that, and it does not set another worker back; a new question is refused at once. */
  lemma QuietIsKept(s: State, op: Op, other: nat)
    requires Quiet(s) && Enabled(s, op) && ByWorker(op)
    ensures Quiet(Step(s, op))
    ensures op.Ask? ==> Step(s, op).questions[op.r].phase == Refused
    ensures !op.Ask? ==> Rank(Step(s, op).questions[op.r].phase) < Rank(s.questions[op.r].phase)
    ensures other in s.questions && other != op.r ==> Step(s, op).questions[other] == s.questions[other]
  {
    StepKeeps(s, op);
  }

  /** The join cannot deadlock: from there every asking worker returns by its own steps alone. */
  lemma {:induction false} EveryWorkerReturns(s: State, r: nat) returns (ops: seq<Op>)
    requires Quiet(s) && r in s.questions
    ensures LegalRun(s, ops) && (forall op :: op in ops ==> ByWorker(op) && op.r == r)
    ensures Quiet(Run(s, ops)) && r in Run(s, ops).questions && Done(Run(s, ops).questions[r].phase)
    decreases Rank(s.questions[r].phase)
  {
    if Done(s.questions[r].phase) {
      ops := [];
    } else {
      QuietNeverParks(s, r);
      var op := OwnStep(s, r);
      QuietIsKept(s, op, r);
      var rest := EveryWorkerReturns(Step(s, op), r);
      ops := [op] + rest;
    }
  }

  /** Without the gate's shutdown the same wait is stuck: one posted question and no worker step left. */
  lemma JoinWithoutShutdownIsStuck()
    ensures var ops := [Ask(0), Post(0, true)];
      && LegalRun(INITIAL, ops)
      && !Done(Run(INITIAL, ops).questions[0].phase)
      && forall op :: ByWorker(op) && op.r == 0 ==> !Enabled(Run(INITIAL, ops), op)
  {
    var ops := [Ask(0), Post(0, true)];
    var s := Step(INITIAL, Ask(0));
    assert ops[1..] == [Post(0, true)] && [Post(0, true)][1..] == [];
    assert Run(s, [Post(0, true)]) == Step(s, Post(0, true));
  }

  lemma {:induction false} RunAppend(s: State, a: seq<Op>, b: seq<Op>)
    requires LegalRun(s, a) && LegalRun(Run(s, a), b)
    ensures LegalRun(s, a + b) && Run(s, a + b) == Run(Run(s, a), b)
    decreases |a|
  {
    if a == [] {
      assert a + b == b;
    } else {
      RunAppend(Step(s, a[0]), a[1..], b);
      assert (a + b)[1..] == a[1..] + b;
    }
  }

  /** A finish call ends within its own thread's steps, whatever state it starts from. */
  lemma {:induction false} FinishEnds(s: State, t: nat) returns (ops: seq<Op>)
    requires Inv(s) && t in s.finishes
    ensures LegalRun(s, ops) && Inv(Run(s, ops))
    ensures Run(s, ops).finishes == s.finishes - {t}
    ensures Run(s, ops).shut == s.shut && Run(s, ops).sweep == s.sweep
    decreases match s.finishes[t].stage case CompareExchange => 2 case Store => 1 case Release => 0
  {
    assert OwnsInv(s, t);
    StepKeeps(s, Advance(t));
    var n := Step(s, Advance(t));
    if t in n.finishes {
      var rest := FinishEnds(n, t);
      ops := [Advance(t)] + rest;
      assert n.finishes - {t} == s.finishes - {t};
    } else {
      ops := [Advance(t)];
      assert Run(n, ops[1..]) == n;
    }
  }

  lemma SweepOne(s: State, r: nat)
    requires Inv(s) && s.shut && s.finishes == map[] && r in s.sweep
    ensures Enabled(s, Sweep(r, 0)) && Inv(Step(s, Sweep(r, 0))) && Step(s, Sweep(r, 0)).shut
    ensures |Step(s, Sweep(r, 0)).sweep| < |s.sweep|
  {
    StepKeeps(s, Sweep(r, 0));
    assert s.sweep == Step(s, Sweep(r, 0)).sweep + {r};
  }

  /** shutdown() itself never waits: from any reachable state it gets to the quiet state. */
  lemma {:induction false} ShutdownCompletes(s: State) returns (ops: seq<Op>)
    requires Inv(s) && s.shut
    ensures LegalRun(s, ops) && Quiet(Run(s, ops))
    decreases |s.sweep|, |s.finishes|
  {
    if s.finishes != map[] {
      var t :| t in s.finishes;
      var first := FinishEnds(s, t);
      var n := Run(s, first);
      assert s.finishes.Keys == n.finishes.Keys + {t};
      var rest := ShutdownCompletes(n);
      RunAppend(s, first, rest);
      ops := first + rest;
    } else if s.sweep != {} {
      var r :| r in s.sweep;
      SweepOne(s, r);
      var rest := ShutdownCompletes(Step(s, Sweep(r, 0)));
      ops := [Sweep(r, 0)] + rest;
    } else {
      ops := [];
    }
  }

  /** A shut gate stays shut: no question registers with it again, and no queued call opens a dialog any more. */
  lemma ShutForGood(s: State, op: Op)
    requires Inv(s) && s.shut && Enabled(s, op)
    ensures var n := Step(s, op);
      && n.shut && n.pending == {} && n.dialogs <= s.dialogs
      && (forall r :: r in n.questions && Waits(n.questions[r].phase) ==>
            r in s.questions && Waits(s.questions[r].phase))
  {
    if op.Advance? {
      AdvanceQuestions(s, op.thread);
    } else {
      assert SetsInv(s);
    }
  }

  // ---------- The two classes, called without interference ----------

  class PluginQuestion {
    var finished: bool
    var value: int
    var ready: nat

    constructor ()
      ensures !finished && value == -1 && ready == 0
    {
      finished, value, ready := false, -1, 0;
    }

    /** Release-once: the first answer wins. */
    method Finish(answer: int)
      modifies this
      ensures finished
      ensures value == (if old(finished) then old(value) else answer)
      ensures ready == (if old(finished) then old(ready) else old(ready) + 1)
    {
      if finished {
        return;
      }
      finished := true;
      value := answer;
      ready := ready + 1;
    }
  }

  class PluginMessageGate {
    var shuttingDown: bool
    var pending: seq<PluginQuestion>

    constructor ()
      ensures !shuttingDown && pending == []
    {
      shuttingDown, pending := false, [];
    }

    method BeginRequest(question: PluginQuestion) returns (accepted: bool)
      modifies this
      ensures accepted == !old(shuttingDown) && shuttingDown == old(shuttingDown)
      ensures pending == if accepted then old(pending) + [question] else old(pending)
    {
      if shuttingDown {
        return false;
      }
      pending := pending + [question];
      return true;
    }

    method EndRequest(question: PluginQuestion)
      modifies this
      ensures shuttingDown == old(shuttingDown)
      ensures pending == Without(old(pending), question)
    {
      pending := Without(pending, question);
    }

    /** Every question pending at the call has an answer and a permit for it afterwards, old answers untouched. */
    method Shutdown()
      modifies this, pending
      ensures shuttingDown && pending == []
      ensures forall q :: q in old(pending) ==>
        && q.finished
        && q.value == (if old(q.finished) then old(q.value) else -1)
        && q.ready == (if old(q.finished) then old(q.ready) else old(q.ready) + 1)
    {
      shuttingDown := true;
      var swept := pending;
      pending := [];
      for i := 0 to |swept|
        invariant shuttingDown && pending == []
        invariant forall q :: q in swept[..i] ==>
          && q.finished
          && q.value == (if old(q.finished) then old(q.value) else -1)
          && q.ready == (if old(q.finished) then old(q.ready) else old(q.ready) + 1)
        invariant forall q :: q in swept && q !in swept[..i] ==>
          q.finished == old(q.finished) && q.value == old(q.value) && q.ready == old(q.ready)
      {
        assert swept[..i + 1] == swept[..i] + [swept[i]];
        swept[i].Finish(-1);
      }
      assert swept[..|swept|] == swept;
    }
  }

  /** The list with every occurrence of `gone` erased. */
  function Without<T(==)>(s: seq<T>, gone: T): seq<T> {
    if s == [] then []
    else if s[0] == gone then Without(s[1..], gone)
    else [s[0]] + Without(s[1..], gone)
  }

  lemma {:induction false} WithoutExactly<T>(s: seq<T>, gone: T, x: T)
    ensures x in Without(s, gone) <==> x in s && x != gone
  {
    if s != [] {
      WithoutExactly(s[1..], gone, x);
    }
  }
}
