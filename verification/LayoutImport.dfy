/**
 The layout import batch as values: planning one source, the cache-hit loads, the sequential import jobs, the
 quarantine-and-replan path, cancel and rollback. The loader, the providers and the user appear as answers that each
 operation is given. The classes and the proofs build on these functions.
 */
module LayoutImport {
  import opened Basics

  // ---------- Planning ----------

  datatype Outcome = AlreadyLoaded | CacheHit | Imported | Failed | SkippedUntrusted | Cancelled

  datatype Plan = Done | Hit | Miss

  datatype Trust = Trusted | NeedsConfirmation | Refused

  /** The provider's answer: `named` a source identity, `placed` a local path (its own or the host cache slot). */
  datatype Query =
    | NoAnswer
    | Answer(named: bool, placed: bool, trust: Trust, loaded: bool, materialized: bool, onDisk: bool, estimate: nat)

  datatype Cache = Absent | Contended | Cached(loaded: bool)

  /** Everything planning finds out about one source. */
  datatype Facts = Facts(
    valid: bool, cache: Cache, session: bool, query: Query, savedLoaded: bool, savedExists: bool)

  /**
   One planned source. `result` is None until the source concludes. `ticket` names the load it waits for; `gated`
   (its import needs the user's consent) and `confirmed` (the user gave it) are history.
   */
  datatype Source = Source(
    plan: Plan, needsConfirmation: bool, hostCacheHit: bool, fallback: bool,
    result: Option<Outcome>, ticket: Option<nat>, gated: bool, confirmed: bool)

  const UNPLANNED := Source(Done, false, false, false, None, None, false, false)

  datatype Config = Config(interactive: bool, limit: nat, checkpoints: bool)

  function Concluded(s: Source, outcome: Outcome): Source {
    s.(plan := Done, result := Some(outcome))
  }

  function ClassifyFallback(s: Source, f: Facts): Source {
    if f.savedLoaded then Concluded(s.(fallback := true), AlreadyLoaded)
    else if f.savedExists then s.(fallback := true, plan := Hit)
    else Concluded(s.(fallback := true), Failed)
  }

  function FailOrConfirm(s: Source, c: Config): Source {
    if c.interactive then s.(needsConfirmation := true, gated := true)
    else Concluded(s.(gated := true), Failed)
  }

  function PlanMiss(s: Source, q: Query, c: Config): Source
    requires q.Answer?
  {
    var asked := if q.trust == NeedsConfirmation then FailOrConfirm(s.(plan := Miss), c) else s.(plan := Miss);
    if asked.plan == Miss && c.limit > 0 && q.estimate > c.limit then FailOrConfirm(asked, c) else asked
  }

  function PlanViaProvider(s: Source, f: Facts, c: Config): Source {
    if !f.session then ClassifyFallback(s, f)
    else
      match f.query
      case NoAnswer => ClassifyFallback(s, f)
      case Answer(named, placed, trust, loaded, materialized, onDisk, _) =>
        if !named then Concluded(s, Failed)
        else if !placed then ClassifyFallback(s, f)
        else if trust == Refused then Concluded(s, Failed)
        else if loaded then Concluded(s, AlreadyLoaded)
        else if materialized then (if onDisk then s.(plan := Hit) else Concluded(s, Failed))
        else PlanMiss(s, f.query, c)
  }

  function PlanSource(f: Facts, c: Config): Source {
    if !f.valid then ClassifyFallback(UNPLANNED, f)
    else
      match f.cache
      case Cached(loaded) =>
        if loaded then Concluded(UNPLANNED, AlreadyLoaded) else UNPLANNED.(plan := Hit, hostCacheHit := true)
      case Contended => Concluded(UNPLANNED, Failed)
      case Absent => PlanViaProvider(UNPLANNED, f, c)
  }

  // ---------- The batch ----------

  datatype Stage = Idle | Prepared | Running | Cancelling | Finished

  /** What the batch does to its surroundings, in order. */
  datatype Effect = Checkpoint | Remove(dataset: nat) | Restore | EmitFinished

  /**
   `queue` is the part of the job queue not started yet; `nextTicket` is the loader's counter. The last four fields are
   history: every dataset a child reported, the effects so far, the session's datasets now and when start() ran.
   */
  datatype Batch = Batch(
    config: Config, stage: Stage, sources: seq<Source>,
    tickets: map<nat, nat>, queue: seq<nat>, active: Option<nat>,
    produced: seq<nat>, checkpoint: bool, cancelled: bool, nextTicket: nat,
    ledger: seq<nat>, effects: seq<Effect>, live: set<nat>, before: Option<set<nat>>)

  function New(c: Config, nextTicket: nat, live: set<nat>): Batch {
    Batch(c, Idle, [], map[], [], None, [], false, false, nextTicket, [], [], live, None)
  }

  /**
   The answers one operation gets: does the loader accept source i (host-cache load or not), what planning finds
   when i is replanned, is i's provider session there, does its import job start.
   */
  datatype Env = Env(accepts: (nat, bool) -> bool, refacts: nat -> Facts, session: nat -> bool, starts: nat -> bool)

  function Edit(b: Batch, i: nat, s: Source): Batch
    requires i < |b.sources|
  {
    b.(sources := b.sources[i := s])
  }

  function SetResult(b: Batch, i: nat, outcome: Outcome): Batch
    requires i < |b.sources|
  {
    Edit(b, i, b.sources[i].(result := Some(outcome)))
  }

  /** The loader accepts source `i`: its counter gives the ticket, which is the batch's key for it. */
  function Await(b: Batch, i: nat): Batch
    requires i < |b.sources|
  {
    var t := b.nextTicket + 1;
    Edit(b, i, b.sources[i].(ticket := Some(t))).(nextTicket := t, tickets := b.tickets[t := i])
  }

  /** A ticket's entry leaves the map. */
  function Release(b: Batch, t: nat): Batch
    requires t in b.tickets && b.tickets[t] < |b.sources|
  {
    var i := b.tickets[t];
    Edit(b, i, b.sources[i].(ticket := None)).(tickets := b.tickets - {t})
  }

  predicate InRange(b: Batch) {
    && (forall k :: 0 <= k < |b.queue| ==> b.queue[k] < |b.sources|)
    && (forall t :: t in b.tickets ==> b.tickets[t] < |b.sources|)
    && (b.active.Some? ==> b.active.value < |b.sources|)
  }

  /** startNextJob: the first queue entry whose job starts becomes the active one; the ones before it fail. */
  function StartNextJob(b: Batch, env: Env): Batch
    requires InRange(b)
    decreases |b.queue|
  {
    if b.stage != Running || b.active.Some? || b.queue == [] then b
    else
      var i := b.queue[0];
      var n := b.(queue := b.queue[1..]);
      if !env.session(i) || !env.starts(i) then StartNextJob(SetResult(n, i, Failed), env)
      else n.(active := Some(i))
  }

  /** The provider's word on a source whose cached copy failed to load; a late prompt is a failure. */
  function Replan(s: Source, f: Facts, c: Config): Source {
    var p := PlanViaProvider(s.(plan := Done, hostCacheHit := false), f, c);
    if p.plan == Miss && p.needsConfirmation then Concluded(p.(needsConfirmation := false), Failed) else p
  }

  function StartHitLoad(b: Batch, i: nat, env: Env): Batch
    requires InRange(b) && i < |b.sources|
    decreases if b.sources[i].hostCacheHit then 3 else 0
  {
    if env.accepts(i, b.sources[i].hostCacheHit) then Await(b, i)
    else if b.sources[i].hostCacheHit then HandleCacheLoadFailure(b, i, env)
    else Edit(b, i, Concluded(b.sources[i], Failed))
  }

  function HandleCacheLoadFailure(b: Batch, i: nat, env: Env): Batch
    requires InRange(b) && i < |b.sources|
    decreases 2
  {
    if b.stage != Running then Edit(b, i, Concluded(b.sources[i].(hostCacheHit := false), Cancelled))
    else
      ReplanClearsHit(b.sources[i], env.refacts(i), b.config);
      Resume(Edit(b, i, Replan(b.sources[i], env.refacts(i), b.config)), i, env)
  }

  lemma PlanMissHit(s: Source, q: Query, c: Config)
    requires q.Answer?
    ensures PlanMiss(s, q, c).hostCacheHit == s.hostCacheHit
  {
  }

  lemma ReplanClearsHit(s: Source, f: Facts, c: Config)
    ensures !Replan(s, f, c).hostCacheHit
  {
    var d := s.(plan := Done, hostCacheHit := false);
    if f.query.Answer? {
      PlanMissHit(d, f.query, c);
    }
    assert !PlanViaProvider(d, f, c).hostCacheHit;
  }

  /** What a freshly replanned source needs now. */
  function Resume(b: Batch, i: nat, env: Env): Batch
    requires InRange(b) && i < |b.sources| && !b.sources[i].hostCacheHit
    decreases 1
  {
    match b.sources[i].plan
    case Done => b
    case Hit => StartHitLoad(b, i, env)
    case Miss => StartNextJob(b.(queue := b.queue + [i]), env)
  }

  // ---------- Operations ----------

  predicate Drained(b: Batch) {
    b.tickets == map[] && b.active.None? && b.queue == []
  }

  function Removals(ids: seq<nat>): seq<Effect> {
    seq(|ids|, k requires 0 <= k < |ids| => Remove(ids[k]))
  }

  function RolledBack(b: Batch): Batch {
    if b.stage == Cancelling && b.checkpoint then
      b.(effects := b.effects + Removals(b.produced) + [Restore],
         live := b.live - (set x | x in b.produced), produced := [])
    else b
  }

  function MaybeFinish(b: Batch): Batch {
    if (b.stage != Running && b.stage != Cancelling) || !Drained(b) then b
    else
      var n := RolledBack(b);
      n.(stage := Finished, effects := n.effects + [EmitFinished])
  }

  function Prepare(b: Batch, facts: seq<Facts>): Batch {
    b.(stage := Prepared, sources := seq(|facts|, k requires 0 <= k < |facts| => PlanSource(facts[k], b.config)))
  }

  predicate Asks(s: Source) {
    s.plan == Miss && s.needsConfirmation
  }

  predicate Unfinished(s: Source) {
    s.plan != Done
  }

  predicate HasPendingWork(b: Batch) {
    exists i :: 0 <= i < |b.sources| && Unfinished(b.sources[i])
  }

  datatype Choice = TrustAndImport | Skip | CancelLayout

  function Prompted(b: Batch, choice: Choice): Batch {
    b.(sources := seq(|b.sources|, k requires 0 <= k < |b.sources| =>
         if !Asks(b.sources[k]) then b.sources[k]
         else if choice == Skip then Concluded(b.sources[k], SkippedUntrusted)
         else b.sources[k].(confirmed := true)))
  }

  /** start()'s loop over the planned sources from `k` on. */
  function Launch(b: Batch, k: nat, env: Env): Batch
    requires InRange(b) && k <= |b.sources|
    decreases |b.sources| - k
  {
    if k == |b.sources| then b
    else
      var n := if b.sources[k].plan == Hit then StartHitLoad(b, k, env)
               else if b.sources[k].plan == Miss then b.(queue := b.queue + [k])
               else b;
      StartHitLoadShape(b, k, env);
      Launch(n, k + 1, env)
  }

  /** The trust prompt: asked when some planned import needs consent. */
  function Consent(b: Batch, choice: Choice): Batch {
    if exists i :: 0 <= i < |b.sources| && Asks(b.sources[i]) then Prompted(b, choice) else b
  }

  predicate Declined(b: Batch, choice: Choice) {
    choice == CancelLayout && exists i :: 0 <= i < |b.sources| && Asks(b.sources[i])
  }

  function Started(b: Batch): Batch {
    b.(stage := Running, checkpoint := b.config.checkpoints, before := Some(b.live),
       effects := if b.config.checkpoints then b.effects + [Checkpoint] else b.effects)
  }

  function Start(b: Batch, choice: Choice, env: Env): Batch
    requires InRange(b)
  {
    if Declined(b, choice) then b.(stage := Finished)
    else
      var asked := Consent(b, choice);
      if !HasPendingWork(asked) then asked.(stage := Finished)
      else
        var launched := Launch(Started(asked), 0, env);
        LaunchShape(Started(asked), 0, env);
        MaybeFinish(StartNextJob(launched, env))
  }

  datatype LoadOutcome = LoadLoaded | LoadFailed | LoadCancelled

  function Report(b: Batch, ids: seq<nat>): Batch {
    b.(produced := b.produced + ids, ledger := b.ledger + ids, live := b.live + (set x | x in ids))
  }

  function OnLoadFinished(b: Batch, t: nat, outcome: LoadOutcome, ids: seq<nat>, env: Env): Batch
    requires InRange(b)
  {
    if t !in b.tickets then b
    else
      var i := b.tickets[t];
      var n := Report(Release(b, t), ids);
      MaybeFinish(
        match outcome
        case LoadLoaded => SetResult(n, i, CacheHit)
        case LoadCancelled => SetResult(n, i, Cancelled)
        case LoadFailed => if n.sources[i].hostCacheHit then HandleCacheLoadFailure(n, i, env) else SetResult(n, i, Failed))
  }

  datatype JobOutcome = JobPromoted | JobEager | JobCancelled | JobFailed

  function JobResult(outcome: JobOutcome): Outcome {
    match outcome
    case JobPromoted => Imported
    case JobEager => Imported
    case JobCancelled => Cancelled
    case JobFailed => Failed
  }

  function OnJobTerminal(b: Batch, outcome: JobOutcome, env: Env): Batch
    requires InRange(b) && b.active.Some?
  {
    var n := SetResult(b.(active := None), b.active.value, JobResult(outcome));
    MaybeFinish(StartNextJob(n, env))
  }

  /** cancel() outside Running: every planned source concludes. */
  function CancelPlanned(b: Batch): Batch {
    b.(sources := seq(|b.sources|, k requires 0 <= k < |b.sources| =>
         if b.sources[k].plan == Done then b.sources[k] else Concluded(b.sources[k], Cancelled)))
  }

  /** cancel() while running: the queue entries that have not started conclude, first to last. */
  function CancelQueue(b: Batch): Batch
    requires InRange(b)
    decreases |b.queue|
  {
    if b.queue == [] then b else CancelQueue(SetResult(b.(queue := b.queue[1..]), b.queue[0], Cancelled))
  }

  function Cancel(b: Batch): Batch
    requires InRange(b)
  {
    if b.stage == Finished || b.stage == Cancelling then b
    else
      var n := b.(cancelled := true, stage := Cancelling);
      MaybeFinish(if b.stage != Running then CancelPlanned(n) else CancelQueue(n))
  }

  // ---------- Shapes the definitions need ----------

  lemma StartNextJobShape(b: Batch, env: Env)
    requires InRange(b)
    ensures InRange(StartNextJob(b, env)) && |StartNextJob(b, env).sources| == |b.sources|
    decreases |b.queue|
  {
    if b.stage == Running && b.active.None? && b.queue != [] {
      var n := SetResult(b.(queue := b.queue[1..]), b.queue[0], Failed);
      StartNextJobShape(n, env);
    }
  }

  lemma StartHitLoadShape(b: Batch, i: nat, env: Env)
    requires InRange(b) && i < |b.sources|
    ensures InRange(StartHitLoad(b, i, env)) && |StartHitLoad(b, i, env).sources| == |b.sources|
    decreases if b.sources[i].hostCacheHit then 3 else 0
  {
    if !env.accepts(i, b.sources[i].hostCacheHit) && b.sources[i].hostCacheHit {
      FailureShape(b, i, env);
    }
  }

  lemma FailureShape(b: Batch, i: nat, env: Env)
    requires InRange(b) && i < |b.sources|
    ensures InRange(HandleCacheLoadFailure(b, i, env))
    ensures |HandleCacheLoadFailure(b, i, env).sources| == |b.sources|
    decreases 2
  {
    if b.stage == Running {
      ReplanClearsHit(b.sources[i], env.refacts(i), b.config);
      ResumeShape(Edit(b, i, Replan(b.sources[i], env.refacts(i), b.config)), i, env);
    }
  }

  lemma ResumeShape(b: Batch, i: nat, env: Env)
    requires InRange(b) && i < |b.sources| && !b.sources[i].hostCacheHit
    ensures InRange(Resume(b, i, env)) && |Resume(b, i, env).sources| == |b.sources|
    decreases 1
  {
    if b.sources[i].plan == Hit {
      StartHitLoadShape(b, i, env);
    } else if b.sources[i].plan == Miss {
      StartNextJobShape(b.(queue := b.queue + [i]), env);
    }
  }

  lemma LaunchShape(b: Batch, k: nat, env: Env)
    requires InRange(b) && k <= |b.sources|
    ensures InRange(Launch(b, k, env)) && |Launch(b, k, env).sources| == |b.sources|
    decreases |b.sources| - k
  {
    if k < |b.sources| {
      StartHitLoadShape(b, k, env);
      var n := if b.sources[k].plan == Hit then StartHitLoad(b, k, env)
               else if b.sources[k].plan == Miss then b.(queue := b.queue + [k])
               else b;
      LaunchShape(n, k + 1, env);
    }
  }
}
